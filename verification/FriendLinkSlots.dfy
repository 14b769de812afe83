/** Who holds a slot when a saga is over. The list writes that land in a run decide it,
    and a few of them the code does not undo. */
module FriendLinkSlots {
  import opened Common
  import opened FriendLists
  import opened FriendLinkDriver
  import opened FriendLinkWorld
  import opened FriendLinkSafety
  import opened FriendLinkTheorems
  import opened FriendLinkAnswers

  /** A list write that an event makes land, and the link it is made for. */
  datatype Landing = Landing(player: PlayerId, edit: Edit, link: Link, friend: PlayerId, after: FriendList)

  function LandingOf(w: World, e: Event): Option<Landing> {
    if !e.Act? || e.id !in w.drivers || e.fault.Refuse? then None
    else
      match w.drivers[e.id].run
      case Advancing(at, g, _, _, _) =>
        if !at.Listing? || !at.phase.Replace? then None
        else
          var p := Subject(g, at.edit);
          var plan := PlanFor(g, at.edit, at.name, at.phase.list);
          if p in w.store.lists && w.store.lists[p].version == at.phase.listVersion && plan.Write?
          then Some(Landing(p, at.edit, g.link, Other(g, at.edit), plan.list)) else None
      case _ => None
  }

  predicate Lands(w: World, e: Event, p: PlayerId, k: Link) {
    LandingOf(w, e).Some? && LandingOf(w, e).value.player == p && LandingOf(w, e).value.link == k
  }

  predicate IsConsume(e: Edit) { e == ConsumeLow || e == ConsumeHigh }

  /** On behalf of link `k`, the event makes a reservation at `p` land; or an entry; or
      a release. */
  predicate Reserving(w: World, e: Event, p: PlayerId, k: Link) { Lands(w, e, p, k) && IsReserve(LandingOf(w, e).value.edit) }

  predicate Consuming(w: World, e: Event, p: PlayerId, k: Link) { Lands(w, e, p, k) && IsConsume(LandingOf(w, e).value.edit) }

  predicate Freeing(w: World, e: Event, p: PlayerId, k: Link) { Lands(w, e, p, k) && IsRelease(LandingOf(w, e).value.edit) }

  /** `p` holds a slot for `k`. */
  predicate Holds(w: World, p: PlayerId, k: Link) {
    p in w.store.lists && Reserves(w.store.lists[p].value.reservations, k)
  }

  // ------------------------------------------------------------- histories of a run

  /** The reservation was made, and no entry or release of the link followed it. */
  ghost predicate Kept(owners: map<string, PlayerId>, es: seq<Event>, p: PlayerId, k: Link)
    decreases |es|
  {
    es != []
    && var (w, e) := (RunAll(Empty(owners), es[..|es| - 1]), es[|es| - 1]);
       Reserving(w, e, p, k) || (Kept(owners, es[..|es| - 1], p, k) && !Consuming(w, e, p, k) && !Freeing(w, e, p, k))
  }

  /** Some event made a reservation of `k` at `p` land; an entry; a release. */
  ghost predicate EverReserved(owners: map<string, PlayerId>, es: seq<Event>, p: PlayerId, k: Link)
    decreases |es|
  {
    es != [] && (EverReserved(owners, es[..|es| - 1], p, k)
                 || Reserving(RunAll(Empty(owners), es[..|es| - 1]), es[|es| - 1], p, k))
  }

  ghost predicate EverConsumed(owners: map<string, PlayerId>, es: seq<Event>, p: PlayerId, k: Link)
    decreases |es|
  {
    es != [] && (EverConsumed(owners, es[..|es| - 1], p, k)
                 || Consuming(RunAll(Empty(owners), es[..|es| - 1]), es[|es| - 1], p, k))
  }

  ghost predicate EverFreed(owners: map<string, PlayerId>, es: seq<Event>, p: PlayerId, k: Link)
    decreases |es|
  {
    es != [] && (EverFreed(owners, es[..|es| - 1], p, k)
                 || Freeing(RunAll(Empty(owners), es[..|es| - 1]), es[|es| - 1], p, k))
  }

  // ------------------------------------------------------------- one event

  /** What a landing writes is the plan for the list as it is. */
  lemma LandingIsPlanned(w: World, e: Event)
    requires Inv(w) && LandingOf(w, e).Some?
    ensures var x := LandingOf(w, e).value;
      && x.player in w.store.lists && x.player in Step(w, e).store.lists
      && Step(w, e).store.lists == w.store.lists[x.player := Row(x.after, w.store.lists[x.player].version + 1)]
      && var l := w.store.lists[x.player].value;
         && (IsReserve(x.edit) ==> PlanReserve(l, x.link, x.friend) == Write(x.after))
         && (IsRelease(x.edit) ==> x.after == Freed(l, x.link))
         && (IsConsume(x.edit) ==> x.after.reservations == Freed(l, x.link).reservations && HasFriend(x.after, x.friend))
  {
    hide StoreOK, Stable, Lineage, HasFriend, HasRelation, Reserves, Without, Listed, Slots, Feed;
    var d := w.drivers[e.id];
    assert DriverOK(w.store, d);
    var (g, at) := (d.run.saga, d.run.at);
    assert ListLineage(w.store, Subject(g, at.edit), at.phase.list, at.phase.listVersion);
    var x := LandingOf(w, e).value;
    if IsConsume(x.edit) { Appended(x.after.entries, x); }
  }

  lemma Appended(es: seq<Entry>, x: Landing)
    requires es == x.after.entries && es != [] && es[|es| - 1].friend == x.friend
    ensures HasFriend(x.after, x.friend)
  {
  }

  lemma ListsAfter(s: Store, c: Call, fault: Fault, pick: Pick, p: PlayerId)
    requires c.UpdateList? && p == c.player && !fault.Refuse? ==> p !in s.lists || s.lists[p].version != c.version
    ensures var t := Perform(s, c, fault, pick).0;
      && (p in s.lists ==> p in t.lists && t.lists[p] == s.lists[p])
      && (p !in s.lists && p in t.lists ==> t.lists[p].value == EMPTY_LIST)
  {
  }

  /** Without a landing no list changes, but that an empty one may appear. */
  lemma NoLanding(w: World, e: Event, p: PlayerId)
    requires LandingOf(w, e).None?
    ensures p in w.store.lists ==> p in Step(w, e).store.lists && Step(w, e).store.lists[p] == w.store.lists[p]
    ensures p !in w.store.lists && p in Step(w, e).store.lists ==> Step(w, e).store.lists[p].value == EMPTY_LIST
  {
    hide Feed, PlanFor, Perform;
    if e.Act? && e.id in w.drivers {
      ListsAfter(w.store, CallOf(w.drivers[e.id]), e.fault, e.pick, p);
    }
  }

  lemma HoldsStep(w: World, e: Event, p: PlayerId, k: Link)
    requires Inv(w)
    ensures Holds(Step(w, e), p, k) <==>
      Reserving(w, e, p, k) || (Holds(w, p, k) && !Consuming(w, e, p, k) && !Freeing(w, e, p, k))
  {
    hide Inv, Step, LandingOf, PlanFor;
    if LandingOf(w, e).None? {
      NoLanding(w, e, p);
    } else {
      LandingIsPlanned(w, e);
      var x := LandingOf(w, e).value;
      if x.player == p {
        var l := w.store.lists[p].value;
        WithoutSpec(l.reservations, x.link);
        if IsReserve(x.edit) {
          ReservesAppend(l.reservations, Reservation(x.link, x.friend), k);
          ReservePlan(l, x.link, x.friend, x.after);
        }
      }
    }
  }

  lemma ReservePlan(l: FriendList, link: Link, friend: PlayerId, after: FriendList)
    requires PlanReserve(l, link, friend) == Write(after)
    ensures after.reservations == l.reservations + [Reservation(link, friend)] && !HasFriend(l, friend)
  {
  }

  /** A slot is held exactly when its reservation was made and not followed by an entry
      or a release of the link. */
  lemma {:induction false} HeldIffKept(owners: map<string, PlayerId>, es: seq<Event>, p: PlayerId, k: Link)
    ensures Holds(RunAll(Empty(owners), es), p, k) <==> Kept(owners, es, p, k)
    decreases |es|
  {
    hide Inv, Step, Reserving, Consuming, Freeing, Holds;
    if es == [] {
      NothingHeld(owners, p, k);
    } else {
      var front := es[..|es| - 1];
      HeldIffKept(owners, front, p, k);
      RunKeeps(owners, front);
      HoldsStep(RunAll(Empty(owners), front), es[|es| - 1], p, k);
    }
  }

  lemma NothingHeld(owners: map<string, PlayerId>, p: PlayerId, k: Link)
    ensures !Holds(Empty(owners), p, k)
  {
  }

  // ------------------------------------------------------------- an entry of one's own

  /** The other player of a link. */
  function Peer(s: Store, p: PlayerId, k: Link): PlayerId
    requires Known(s, k)
  {
    if PairOf(s, k).0 == p then PairOf(s, k).1 else PairOf(s, k).0
  }

  predicate Befriended(w: World, p: PlayerId, k: Link) {
    Known(w.store, k) && p in w.store.lists && HasFriend(w.store.lists[p].value, Peer(w.store, p, k))
  }

  lemma LandingPeer(w: World, e: Event)
    requires Inv(w) && LandingOf(w, e).Some?
    ensures var x := LandingOf(w, e).value; Known(w.store, x.link) && x.friend == Peer(w.store, x.player, x.link)
  {
    hide StoreOK, CreditFacts, RewardFacts, Listed, Lineage, ListLineage, PlanFor;
    assert DriverOK(w.store, w.drivers[e.id]);
  }

  lemma BefriendedStays(w: World, e: Event, p: PlayerId, k: Link)
    requires Inv(w) && Befriended(w, p, k)
    ensures Befriended(Step(w, e), p, k) && !Reserving(w, e, p, k)
  {
    hide Inv, Step, StoreOK, LandingOf, PlanFor, PlanReserve;
    StepKeeps(w, e);
    FriendStays(w.store, Step(w, e).store, p, k);
    if Reserving(w, e, p, k) {
      LandingIsPlanned(w, e);
      LandingPeer(w, e);
      var x := LandingOf(w, e).value;
      ReservePlan(w.store.lists[p].value, x.link, x.friend, x.after);
    }
  }

  lemma FriendStays(s: Store, t: Store, p: PlayerId, k: Link)
    requires Later(s, t) && Known(s, k) && p in s.lists && HasFriend(s.lists[p].value, Peer(s, p, k))
    ensures Known(t, k) && p in t.lists && HasFriend(t.lists[p].value, Peer(t, p, k))
  {
    assert LaterList(s.lists[p], t.lists[p]);
    var es := s.lists[p].value.entries;
    var i :| 0 <= i < |es| && es[i].friend == Peer(s, p, k);
    assert t.lists[p].value.entries[i] == es[i];
  }

  /** Once its own entry is written a link holds no slot there, and never will. */
  lemma {:induction false} ConsumedHoldsNone(owners: map<string, PlayerId>, es: seq<Event>, p: PlayerId, k: Link)
    requires EverConsumed(owners, es, p, k)
    ensures Befriended(RunAll(Empty(owners), es), p, k) && !Holds(RunAll(Empty(owners), es), p, k)
    decreases |es|
  {
    hide Inv, Step, Reserving, Consuming, Freeing, Holds, Befriended;
    var front, e := es[..|es| - 1], es[|es| - 1];
    var w := RunAll(Empty(owners), front);
    RunKeeps(owners, front);
    HoldsStep(w, e, p, k);
    if EverConsumed(owners, front, p, k) {
      ConsumedHoldsNone(owners, front, p, k);
      BefriendedStays(w, e, p, k);
    } else {
      ConsumingBefriends(w, e, p, k);
    }
  }

  lemma ConsumingBefriends(w: World, e: Event, p: PlayerId, k: Link)
    requires Inv(w) && Consuming(w, e, p, k)
    ensures Befriended(Step(w, e), p, k) && !Reserving(w, e, p, k)
  {
    hide StoreOK, DriverOK, LandingOf, PlanFor, PlanReserve, Later;
    LandingIsPlanned(w, e);
    LandingPeer(w, e);
    StepKeeps(w, e);
    OwnersStay(w.store, Step(w, e).store);
  }

  lemma OwnersStay(s: Store, t: Store)
    requires Later(s, t)
    ensures t.owners == s.owners
  {
  }

  /** A release only lands for a saga that is going back. */
  lemma FreeingMeansBack(w: World, e: Event, p: PlayerId, k: Link)
    requires Inv(w) && Freeing(w, e, p, k)
    ensures k in w.store.sagas && Back(w.store.sagas[k].value.status)
  {
    hide StoreOK, Stable, ListLineage, PlanFor, Listed;
    assert DriverOK(w.store, w.drivers[e.id]);
  }

  lemma BackStays(w: World, e: Event, k: Link)
    requires Inv(w) && k in w.store.sagas && Back(w.store.sagas[k].value.status)
    ensures k in Step(w, e).store.sagas && Back(Step(w, e).store.sagas[k].value.status)
  {
    hide StoreOK, DriverOK, Step;
    StepKeeps(w, e);
    assert LaterSaga(w.store.sagas[k], Step(w, e).store.sagas[k]);
  }

  lemma {:induction false} FreedMeansBack(owners: map<string, PlayerId>, es: seq<Event>, p: PlayerId, k: Link)
    requires EverFreed(owners, es, p, k)
    ensures var w := RunAll(Empty(owners), es); k in w.store.sagas && Back(w.store.sagas[k].value.status)
    decreases |es|
  {
    hide Inv, Step, Freeing;
    var front, e := es[..|es| - 1], es[|es| - 1];
    var w := RunAll(Empty(owners), front);
    RunKeeps(owners, front);
    if EverFreed(owners, front, p, k) {
      FreedMeansBack(owners, front, p, k);
    } else {
      FreeingMeansBack(w, e, p, k);
    }
    BackStays(w, e, k);
  }

  lemma {:induction false} KeptMeansReserved(owners: map<string, PlayerId>, es: seq<Event>, p: PlayerId, k: Link)
    ensures Kept(owners, es, p, k) ==> EverReserved(owners, es, p, k)
    ensures EverReserved(owners, es, p, k) && !EverConsumed(owners, es, p, k) && !EverFreed(owners, es, p, k) ==>
      Kept(owners, es, p, k)
    decreases |es|
  {
    hide Reserving, Consuming, Freeing, RunAll;
    if es != [] { KeptMeansReserved(owners, es[..|es| - 1], p, k); }
  }

  /** A saga that has not turned back, a COMPLETED one in particular, holds a slot of a
      player if and only if it once reserved there and the entry was not written for it:
      another code's saga had projected the pair, and its own consume returned early. */
  lemma ForwardHoldsIff(owners: map<string, PlayerId>, es: seq<Event>, p: PlayerId, k: Link)
    requires var w := RunAll(Empty(owners), es); k in w.store.sagas && Forward(w.store.sagas[k].value.status)
    ensures Holds(RunAll(Empty(owners), es), p, k) <==> EverReserved(owners, es, p, k) && !EverConsumed(owners, es, p, k)
  {
    hide RunAll, Kept, EverReserved, EverConsumed, EverFreed, Holds;
    HeldIffKept(owners, es, p, k);
    KeptMeansReserved(owners, es, p, k);
    if EverConsumed(owners, es, p, k) { ConsumedHoldsNone(owners, es, p, k); }
    if EverFreed(owners, es, p, k) { FreedMeansBack(owners, es, p, k); }
  }

  // ------------------------------------------------------------- who wrote the entry

  lemma LandedEntries(w: World, e: Event)
    requires Inv(w) && LandingOf(w, e).Some?
    ensures var x := LandingOf(w, e).value;
      && x.player in w.store.lists
      && var l := w.store.lists[x.player].value;
         if IsConsume(x.edit) then |x.after.entries| == |l.entries| + 1 && x.after.entries[..|l.entries|] == l.entries
                                   && x.after.entries[|l.entries|].friend == x.friend
         else x.after.entries == l.entries
  {
    hide StoreOK, Stable, Lineage, HasFriend, HasRelation, Reserves, Without, Listed, Slots;
    var d := w.drivers[e.id];
    assert DriverOK(w.store, d);
    var (g, at) := (d.run.saga, d.run.at);
    assert ListLineage(w.store, Subject(g, at.edit), at.phase.list, at.phase.listVersion);
  }

  /** Every entry was written by a consume of some link of its two players. */
  ghost predicate Written(owners: map<string, PlayerId>, es: seq<Event>, p: PlayerId, friend: PlayerId) {
    exists k :: EverConsumed(owners, es, p, k) && Known(RunAll(Empty(owners), es).store, k)
      && Peer(RunAll(Empty(owners), es).store, p, k) == friend
  }

  lemma WrittenStays(owners: map<string, PlayerId>, es: seq<Event>, p: PlayerId, friend: PlayerId)
    requires es != [] && Written(owners, es[..|es| - 1], p, friend)
    ensures Written(owners, es, p, friend)
  {
    hide RunAll, Known, Peer;
    OwnersFixed(owners, es);
    OwnersFixed(owners, es[..|es| - 1]);
    var front := es[..|es| - 1];
    var k :| EverConsumed(owners, front, p, k) && Known(RunAll(Empty(owners), front).store, k)
      && Peer(RunAll(Empty(owners), front).store, p, k) == friend;
    SameOwners(RunAll(Empty(owners), front).store, RunAll(Empty(owners), es).store, p, k);
    assert EverConsumed(owners, es, p, k);
  }

  lemma SameOwners(s: Store, t: Store, p: PlayerId, k: Link)
    requires s.owners == t.owners && Known(s, k)
    ensures Known(t, k) && Peer(s, p, k) == Peer(t, p, k)
  {
  }

  lemma {:induction false} EntriesAreWritten(owners: map<string, PlayerId>, es: seq<Event>, p: PlayerId, i: nat)
    requires var w := RunAll(Empty(owners), es); p in w.store.lists && i < |w.store.lists[p].value.entries|
    ensures Written(owners, es, p, RunAll(Empty(owners), es).store.lists[p].value.entries[i].friend)
    decreases |es|
  {
    hide Inv, Step, LandingOf, Known, Peer, Written;
    if es == [] { return; }
    var front, e := es[..|es| - 1], es[|es| - 1];
    var w, t := RunAll(Empty(owners), front), RunAll(Empty(owners), es);
    RunKeeps(owners, front);
    if LandingOf(w, e).None? {
      NoLanding(w, e, p);
      EntriesAreWritten(owners, front, p, i);
      WrittenStays(owners, es, p, t.store.lists[p].value.entries[i].friend);
    } else {
      LandedEntries(w, e);
      LandingIsPlanned(w, e);
      LandingPeer(w, e);
      var x := LandingOf(w, e).value;
      if x.player != p || i < |w.store.lists[p].value.entries| {
        EntriesAreWritten(owners, front, p, i);
        assert t.store.lists[p].value.entries[i] == w.store.lists[p].value.entries[i];
        WrittenStays(owners, es, p, t.store.lists[p].value.entries[i].friend);
      } else {
        NewlyWritten(owners, es, p);
      }
    }
  }

  lemma NewlyWritten(owners: map<string, PlayerId>, es: seq<Event>, p: PlayerId)
    requires es != []
    requires var w := RunAll(Empty(owners), es[..|es| - 1]);
      && LandingOf(w, es[|es| - 1]).Some?
      && var x := LandingOf(w, es[|es| - 1]).value;
         x.player == p && IsConsume(x.edit) && Known(w.store, x.link) && x.friend == Peer(w.store, p, x.link)
    ensures Written(owners, es, p, LandingOf(RunAll(Empty(owners), es[..|es| - 1]), es[|es| - 1]).value.friend)
  {
    hide Known, Peer, LandingOf, RunAll;
    OwnersFixed(owners, es);
    OwnersFixed(owners, es[..|es| - 1]);
    var w := RunAll(Empty(owners), es[..|es| - 1]);
    var x := LandingOf(w, es[|es| - 1]).value;
    SameOwners(w.store, RunAll(Empty(owners), es).store, p, x.link);
    assert Consuming(w, es[|es| - 1], p, x.link);
    assert EverConsumed(owners, es, p, x.link);
  }

  /** The other link is between the two players of the saga. */
  predicate SamePair(s: Store, k: Link, other: Link) {
    k in s.sagas && Known(s, other) && PairOf(s, other) == (s.sagas[k].value.low, s.sagas[k].value.high)
  }

  /** A projected saga that still holds a slot of a player owes it to another link of the
      same two players, whose entry was written there. */
  lemma LeakedByAnotherLink(owners: map<string, PlayerId>, es: seq<Event>, p: PlayerId, k: Link)
    requires var w := RunAll(Empty(owners), es);
      k in w.store.sagas && Reached(w.store.sagas[k].value.status, ProjectionsApplied)
      && (p == w.store.sagas[k].value.low || p == w.store.sagas[k].value.high) && Holds(w, p, k)
    ensures exists other :: other != k && EverConsumed(owners, es, p, other) && SamePair(RunAll(Empty(owners), es).store, k, other)
  {
    hide RunAll, Holds, EverReserved, EverConsumed;
    var w := RunAll(Empty(owners), es);
    var g := w.store.sagas[k].value;
    ForwardHoldsIff(owners, es, p, k);
    FriendshipIsMutual(owners, es, k);
    var friend := if p == g.low then g.high else g.low;
    var i :| 0 <= i < |w.store.lists[p].value.entries| && w.store.lists[p].value.entries[i].friend == friend;
    EntriesAreWritten(owners, es, p, i);
    var other :| EverConsumed(owners, es, p, other) && Known(w.store, other) && Peer(w.store, p, other) == friend;
    RunKeeps(owners, es);
    assert other != k;
    WriterTouches(owners, es, p, other);
  }

  /** A link only ever writes to the lists of its two players. */
  lemma {:induction false} WriterTouches(owners: map<string, PlayerId>, es: seq<Event>, p: PlayerId, k: Link)
    requires EverConsumed(owners, es, p, k)
    ensures var s := RunAll(Empty(owners), es).store; Known(s, k) && (p == PairOf(s, k).0 || p == PairOf(s, k).1)
    decreases |es|
  {
    hide Inv, Step, LandingOf;
    var front, e := es[..|es| - 1], es[|es| - 1];
    var w := RunAll(Empty(owners), front);
    RunKeeps(owners, front);
    OwnersFixed(owners, es);
    OwnersFixed(owners, front);
    if EverConsumed(owners, front, p, k) {
      WriterTouches(owners, front, p, k);
    } else {
      LandingSide(w, e);
    }
  }

  lemma LandingSide(w: World, e: Event)
    requires Inv(w) && LandingOf(w, e).Some?
    ensures var x := LandingOf(w, e).value;
      Known(w.store, x.link) && (x.player == PairOf(w.store, x.link).0 || x.player == PairOf(w.store, x.link).1)
  {
    hide StoreOK, CreditFacts, RewardFacts, Listed, Lineage, ListLineage, PlanFor;
    assert DriverOK(w.store, w.drivers[e.id]);
  }

  // ------------------------------------------------------------- aborted sagas

  /** A release that ends in an error, which the code drops. */
  predicate ReleaseFails(w: World, e: Event, p: PlayerId, k: Link) {
    && e.Act? && e.id in w.drivers && w.drivers[e.id].run.Advancing?
    && var (d, r) := (w.drivers[e.id], Perform(w.store, CallOf(w.drivers[e.id]), e.fault, e.pick).1);
       && d.run.at.Listing? && IsRelease(d.run.at.edit) && Subject(d.run.saga, d.run.at.edit) == p && d.run.saga.link == k
       && match d.run.at.phase {
            case Read => !r.ListIs? && !r.NotFound?
            case Replace(_, _) => !r.Done? && d.run.at.attempt + 1 >= 8
            case _ => true
          }
  }

  /** A driver that loaded the saga before it turned back reserves after that. */
  predicate ReservesLate(w: World, e: Event, p: PlayerId, k: Link) {
    Reserving(w, e, p, k) && k in w.store.sagas && Back(w.store.sagas[k].value.status)
  }

  ghost predicate EverFailed(owners: map<string, PlayerId>, es: seq<Event>, p: PlayerId, k: Link)
    decreases |es|
  {
    es != [] && (EverFailed(owners, es[..|es| - 1], p, k)
                 || ReleaseFails(RunAll(Empty(owners), es[..|es| - 1]), es[|es| - 1], p, k))
  }

  ghost predicate EverLate(owners: map<string, PlayerId>, es: seq<Event>, p: PlayerId, k: Link)
    decreases |es|
  {
    es != [] && (EverLate(owners, es[..|es| - 1], p, k)
                 || ReservesLate(RunAll(Empty(owners), es[..|es| - 1]), es[|es| - 1], p, k))
  }

  /** The slot is free, or one of the two reasons for it not to be has occurred. */
  ghost predicate Excused(owners: map<string, PlayerId>, es: seq<Event>, p: PlayerId, k: Link) {
    Holds(RunAll(Empty(owners), es), p, k) ==> EverFailed(owners, es, p, k) || EverLate(owners, es, p, k)
  }

  /** The sides a driver that turns back is done with. */
  ghost predicate Tidy(owners: map<string, PlayerId>, es: seq<Event>, run: Run) {
    && (run.Advancing? && run.at.Listing? && run.at.edit == ReleaseHigh ==>
          Back(run.saga.status) && Excused(owners, es, run.saga.low, run.saga.link))
    && (run.Advancing? && run.at.SagaWrite? && run.at.next.status == Aborted ==>
          && Back(run.saga.status) && run.at.next.low == run.saga.low && run.at.next.high == run.saga.high
          && run.at.next.link == run.saga.link
          && Excused(owners, es, run.saga.low, run.saga.link) && Excused(owners, es, run.saga.high, run.saga.link))
  }

  ghost predicate AllTidy(owners: map<string, PlayerId>, es: seq<Event>) {
    var w := RunAll(Empty(owners), es);
    && (forall i :: i in w.drivers ==> Tidy(owners, es, w.drivers[i].run))
    && (forall k :: k in w.store.sagas && w.store.sagas[k].value.status == Aborted ==>
          Excused(owners, es, w.store.sagas[k].value.low, k) && Excused(owners, es, w.store.sagas[k].value.high, k))
  }

  /** An excuse lasts as long as the saga is going back. */
  lemma ExcuseLasts(owners: map<string, PlayerId>, es: seq<Event>, p: PlayerId, k: Link)
    requires es != [] && Excused(owners, es[..|es| - 1], p, k)
    requires var w := RunAll(Empty(owners), es[..|es| - 1]); k in w.store.sagas && Back(w.store.sagas[k].value.status)
    ensures Excused(owners, es, p, k)
  {
    hide Inv, Step, Holds, Reserving, Consuming, Freeing, ReleaseFails;
    var front := es[..|es| - 1];
    RunKeeps(owners, front);
    HoldsStep(RunAll(Empty(owners), front), es[|es| - 1], p, k);
  }

  lemma BackIsDurable(s: Store, d: Driver)
    requires DriverOK(s, d) && d.run.Advancing? && Back(d.run.saga.status)
    ensures d.run.saga.link in s.sagas && Back(s.sagas[d.run.saga.link].value.status)
  {
    hide Stable, AtOK;
  }

  /** Only the end of the low release leads to the high one, and only the end of that to
      writing ABORTED. */
  lemma TurningPoints(s: Store, d: Driver, r: Reply)
    requires DriverOK(s, d)
    ensures var run := Feed(d, r).run;
      && (run.Advancing? && run.at.Listing? && run.at.edit == ReleaseHigh ==>
            && d.run.Advancing? && d.run.at.Listing? && IsRelease(d.run.at.edit)
            && run.saga == d.run.saga && Back(d.run.saga.status))
      && (run.Advancing? && run.at.SagaWrite? && run.at.next.status == Aborted ==>
            && d.run.Advancing? && d.run.at.Listing? && d.run.at.edit == ReleaseHigh
            && run.saga == d.run.saga && run.at.next == d.run.saga.(status := Aborted) && Back(d.run.saga.status))
  {
    hide Stable, Lineage, Listed, Slots, ListLineage, FeedList, FeedSagaWrite, FeedAdvance, Enter;
    if d.run.Advancing? {
      AdvanceFeeds(d, r);
      var (at, g, v, n, p) := (d.run.at, d.run.saga, d.run.version, d.run.steps, d.run.purpose);
      match at
      case Listing(e, name, k, phase) => ListTurns(g, v, n, p, e, name, k, phase, r);
      case SagaWrite(next, after) => WriteTurns(d.job, v, n, p, next, after, r);
      case _ => OtherTurns(d.job, at, g, v, n, p, r);
    } else {
      EnterTurns(d, r);
    }
  }

  /** Neither at the high release nor about to write ABORTED. */
  predicate Elsewhere(run: Run) {
    run.Advancing? ==>
      !(run.at.Listing? && run.at.edit == ReleaseHigh) && !(run.at.SagaWrite? && run.at.next.status == Aborted)
  }

  lemma EnterElsewhere(j: Job, g: Saga, v: nat, n: nat, p: Purpose)
    ensures Elsewhere(Enter(j, g, v, n, p))
  {
  }

  lemma EnterTurns(d: Driver, r: Reply)
    requires !d.run.Advancing?
    ensures Elsewhere(Feed(d, r).run)
  {
    hide Enter;
    forall g, v, p ensures Elsewhere(Enter(d.job, g, v, 0, p)) { EnterElsewhere(d.job, g, v, 0, p); }
  }

  lemma WriteTurns(j: Job, v: nat, n: nat, p: Purpose, next: Saga, after: After, r: Reply)
    requires after.NextCredit? ==> next.status == TaskCrediting
    requires after.NextMail? ==> next.status == RewardMailsCreated
    ensures Elsewhere(FeedSagaWrite(j, v, n, p, next, after, r))
  {
    hide Enter;
    if after == NextStep && r.Done? { EnterElsewhere(j, next, r.version, n + 1, p); }
  }

  lemma OtherTurns(j: Job, at: At, g: Saga, v: nat, n: nat, p: Purpose, r: Reply)
    requires !at.Listing? && !at.SagaWrite?
    requires at.NameRead? ==> at.edit == ConsumeLow || at.edit == ConsumeHigh
    requires at.Crediting? ==> g.status == TaskCrediting
    requires at.Claiming? ==> g.status == FirstRewardChecked
    requires at.Mailing? ==> g.status == RewardMailsCreated
    ensures Elsewhere(FeedAdvance(j, at, g, v, n, p, r))
  {
  }

  lemma ListTurns(g: Saga, v: nat, n: nat, p: Purpose, e: Edit, name: string, k: nat, phase: ListPhase, r: Reply)
    requires EditStatus(e) == g.status
    ensures var run := FeedList(g, v, n, p, e, name, k, phase, r);
      && (run.Advancing? && run.at.Listing? && run.at.edit == ReleaseHigh ==> IsRelease(e) && run.saga == g)
      && (run.Advancing? && run.at.SagaWrite? && run.at.next.status == Aborted ==>
            e == ReleaseHigh && run.saga == g && run.at.next == g.(status := Aborted))
  {
    hide HasFriend, HasRelation, Reserves;
  }

  /** A release that is over freed the slot, found it free, or failed. */
  lemma ReleaseEnds(w: World, e: Event)
    requires Inv(w) && e.Act? && e.id in w.drivers && w.drivers[e.id].run.Advancing?
    requires w.drivers[e.id].run.at.Listing? && IsRelease(w.drivers[e.id].run.at.edit)
    requires var run := Step(w, e).drivers[e.id].run;
      !(run.Advancing? && run.at.Listing? && run.at.edit == w.drivers[e.id].run.at.edit)
    ensures var g := w.drivers[e.id].run.saga;
      var p := Subject(g, w.drivers[e.id].run.at.edit);
      !Holds(Step(w, e), p, g.link) || ReleaseFails(w, e, p, g.link)
  {
    hide StoreOK, Stable, Lineage, Listed, Slots, Without, Reserves, FeedList, HasFriend, HasRelation;
    var d := w.drivers[e.id];
    var r := Perform(w.store, CallOf(d), e.fault, e.pick).1;
    assert DriverOK(w.store, d);
    AdvanceFeeds(d, r);
    var g := d.run.saga;
    var p := Subject(g, d.run.at.edit);
    ReleaseFeeds(g, d.run.version, d.run.steps, d.run.purpose, d.run.at.edit, d.run.at.name, d.run.at.attempt, d.run.at.phase, r);
    if d.run.at.phase.Replace? && r.Done? {
      WithoutSpec(d.run.at.phase.list.reservations, g.link);
    }
  }

  lemma ReleaseFeeds(g: Saga, v: nat, n: nat, p: Purpose, e: Edit, name: string, k: nat, phase: ListPhase, r: Reply)
    requires IsRelease(e)
    ensures var run := FeedList(g, v, n, p, e, name, k, phase, r);
      !(run.Advancing? && run.at.Listing? && run.at.edit == e) ==>
        match phase
        case Read => !r.ListIs? || !Reserves(r.list.reservations, g.link)
        case Replace(_, _) => r.Done? || k + 1 >= 8
        case _ => true
  {
    hide Reserves, Without;
  }

  lemma DriverTidy(owners: map<string, PlayerId>, es: seq<Event>, i: nat)
    requires es != [] && AllTidy(owners, es[..|es| - 1]) && i in RunAll(Empty(owners), es).drivers
    ensures Tidy(owners, es, RunAll(Empty(owners), es).drivers[i].run)
  {
    hide Inv, Step, Excused, DriverOK, StoreOK;
    var front, e := es[..|es| - 1], es[|es| - 1];
    var w := RunAll(Empty(owners), front);
    RunKeeps(owners, front);
    DriverMoves(w, e, i);
    if i in w.drivers {
      var d := w.drivers[i];
      assert DriverOK(w.store, d) by { DriversFine(w, i); }
      var run := Step(w, e).drivers[i].run;
      if e.Act? && e.id == i {
        TurningPoints(w.store, d, Perform(w.store, CallOf(d), e.fault, e.pick).1);
      }
      if !Elsewhere(run) {
        ElsewhereBack(d, run, owners, front);
        BackIsDurable(w.store, d);
        var g := d.run.saga;
        if e.Act? && e.id == i { EndOfRelease(owners, es, i); }
        if d.run.at.SagaWrite? || d.run.at.edit == ReleaseHigh { ExcuseLasts(owners, es, g.low, g.link); }
        if d.run.at.SagaWrite? { ExcuseLasts(owners, es, g.high, g.link); }
      }
    }
  }

  lemma DriversFine(w: World, i: nat)
    requires Inv(w) && i in w.drivers
    ensures DriverOK(w.store, w.drivers[i])
  {
  }

  /** A driver stays, moves by its reply, or is new and elsewhere. */
  lemma DriverMoves(w: World, e: Event, i: nat)
    requires i in Step(w, e).drivers
    ensures i in w.drivers && !(e.Act? && e.id == i) ==> Step(w, e).drivers[i] == w.drivers[i]
    ensures i in w.drivers && e.Act? && e.id == i ==>
      Step(w, e).drivers[i] == Feed(w.drivers[i], Perform(w.store, CallOf(w.drivers[i]), e.fault, e.pick).1)
    ensures i !in w.drivers ==> Elsewhere(Step(w, e).drivers[i].run)
  {
    hide Feed, Perform;
  }

  lemma ElsewhereBack(d: Driver, run: Run, owners: map<string, PlayerId>, front: seq<Event>)
    requires Tidy(owners, front, d.run) && !Elsewhere(run)
    requires run == d.run || (
      && d.run.Advancing? && d.run.at.Listing? && IsRelease(d.run.at.edit) && Back(d.run.saga.status))
    ensures d.run.Advancing? && Back(d.run.saga.status) && (d.run.at.Listing? || d.run.at.SagaWrite?)
  {
  }

  /** The side whose release is over is excused. */
  lemma EndOfRelease(owners: map<string, PlayerId>, es: seq<Event>, i: nat)
    requires es != [] && es[|es| - 1].Act? && es[|es| - 1].id == i
    requires var w := RunAll(Empty(owners), es[..|es| - 1]);
      i in w.drivers && w.drivers[i].run.Advancing? && w.drivers[i].run.at.Listing? && IsRelease(w.drivers[i].run.at.edit)
    ensures var (w, t) := (RunAll(Empty(owners), es[..|es| - 1]), RunAll(Empty(owners), es));
      var (g, run) := (w.drivers[i].run.saga, t.drivers[i].run);
      !(run.Advancing? && run.at.Listing? && run.at.edit == w.drivers[i].run.at.edit) ==>
        Excused(owners, es, Subject(g, w.drivers[i].run.at.edit), g.link)
  {
    hide Inv, Holds, ReleaseFails;
    var w := RunAll(Empty(owners), es[..|es| - 1]);
    RunKeeps(owners, es[..|es| - 1]);
    var (run, g) := (Step(w, es[|es| - 1]).drivers[i].run, w.drivers[i].run.saga);
    if !(run.Advancing? && run.at.Listing? && run.at.edit == w.drivers[i].run.at.edit) {
      ReleaseEnds(w, es[|es| - 1]);
      hide Step;
    }
  }

  /** A saga is only written as ABORTED by a driver about to do so. */
  lemma AbortedBy(w: World, e: Event, k: Link)
    requires Inv(w)
    requires k in Step(w, e).store.sagas && Step(w, e).store.sagas[k].value.status == Aborted
    requires !(k in w.store.sagas && w.store.sagas[k].value.status == Aborted)
    ensures e.Act? && e.id in w.drivers
    ensures var run := w.drivers[e.id].run;
      && run.Advancing? && run.at.SagaWrite? && run.at.next == Step(w, e).store.sagas[k].value
      && run.at.next.link == k && run.saga.link == k && run.at.next.status == Aborted
  {
    hide StoreOK, Stable, Lineage, Listed, Slots, ListLineage, Feed, PlanFor;
    if e.Act? && e.id in w.drivers {
      DriversFine(w, e.id);
      var d := w.drivers[e.id];
      SagasAfter(w.store, CallOf(d), e.fault, e.pick, k);
      if d.run.EntryInsert? { DraftIsInit(w.store, d); }
    }
  }

  lemma DraftIsInit(s: Store, d: Driver)
    requires DriverOK(s, d) && d.run.EntryInsert?
    ensures d.run.draft.status == Init
  {
  }

  lemma SagasAfter(s: Store, c: Call, fault: Fault, pick: Pick, k: Link)
    ensures var t := Perform(s, c, fault, pick).0;
      k in t.sagas && !(k in s.sagas && s.sagas[k] == t.sagas[k]) ==>
        (c.UpdateSaga? || c.InsertSaga?) && c.saga.link == k && t.sagas[k].value == c.saga
  {
  }

  lemma SagaTidy(owners: map<string, PlayerId>, es: seq<Event>, k: Link)
    requires es != [] && AllTidy(owners, es[..|es| - 1])
    requires var t := RunAll(Empty(owners), es); k in t.store.sagas && t.store.sagas[k].value.status == Aborted
    ensures var g := RunAll(Empty(owners), es).store.sagas[k].value;
      Excused(owners, es, g.low, k) && Excused(owners, es, g.high, k)
  {
    hide Inv, Step, Excused, DriverOK;
    var front, e := es[..|es| - 1], es[|es| - 1];
    var w := RunAll(Empty(owners), front);
    RunKeeps(owners, front);
    if k in w.store.sagas && w.store.sagas[k].value.status == Aborted {
      ExcuseLasts(owners, es, w.store.sagas[k].value.low, k);
      ExcuseLasts(owners, es, w.store.sagas[k].value.high, k);
      PairStays(w, e, k);
    } else {
      AbortedBy(w, e, k);
      var d := w.drivers[e.id];
      assert Tidy(owners, front, d.run);
      DriversFine(w, e.id);
      BackIsDurable(w.store, d);
      ExcuseLasts(owners, es, d.run.saga.low, k);
      ExcuseLasts(owners, es, d.run.saga.high, k);
    }
  }

  lemma PairStays(w: World, e: Event, k: Link)
    requires Inv(w) && k in w.store.sagas
    ensures k in Step(w, e).store.sagas
    ensures Step(w, e).store.sagas[k].value.low == w.store.sagas[k].value.low
    ensures Step(w, e).store.sagas[k].value.high == w.store.sagas[k].value.high
  {
    hide Step, DriverOK, Later, StoreOK;
    StepKeeps(w, e);
    SagaThere(w.store, Step(w, e).store, k);
    PairIsOwners(w.store, k);
    PairIsOwners(Step(w, e).store, k);
    OwnersStay(w.store, Step(w, e).store);
  }

  lemma SagaThere(s: Store, t: Store, k: Link)
    requires Later(s, t) && k in s.sagas
    ensures k in t.sagas
  {
  }

  lemma PairIsOwners(s: Store, k: Link)
    requires StoreOK(s) && k in s.sagas
    ensures Known(s, k) && (s.sagas[k].value.low, s.sagas[k].value.high) == PairOf(s, k)
  {
    hide StoreOK, CreditFacts, RewardFacts, Listed, Slots;
    SagaRow(s, k);
  }

  lemma {:induction false} TidyRuns(owners: map<string, PlayerId>, es: seq<Event>)
    ensures AllTidy(owners, es)
    decreases |es|
  {
    hide Tidy, Excused, Step;
    if es != [] {
      TidyRuns(owners, es[..|es| - 1]);
      forall i | i in RunAll(Empty(owners), es).drivers ensures Tidy(owners, es, RunAll(Empty(owners), es).drivers[i].run) {
        DriverTidy(owners, es, i);
      }
      forall k | k in RunAll(Empty(owners), es).store.sagas && RunAll(Empty(owners), es).store.sagas[k].value.status == Aborted
        ensures Excused(owners, es, RunAll(Empty(owners), es).store.sagas[k].value.low, k)
        ensures Excused(owners, es, RunAll(Empty(owners), es).store.sagas[k].value.high, k)
      {
        SagaTidy(owners, es, k);
      }
    }
  }

  /** An ABORTED saga holds a slot of a player only if one of its releases there failed,
      or a driver that had loaded it before it turned back reserved there afterwards; and
      it does so exactly when its last reservation there was not followed by a release. */
  lemma AbortedHolds(owners: map<string, PlayerId>, es: seq<Event>, p: PlayerId, k: Link)
    requires var w := RunAll(Empty(owners), es);
      && k in w.store.sagas && w.store.sagas[k].value.status == Aborted
      && (p == w.store.sagas[k].value.low || p == w.store.sagas[k].value.high)
    ensures Holds(RunAll(Empty(owners), es), p, k) <==> Kept(owners, es, p, k)
    ensures Holds(RunAll(Empty(owners), es), p, k) ==> EverFailed(owners, es, p, k) || EverLate(owners, es, p, k)
  {
    hide RunAll, Kept, EverFailed, EverLate, Holds, Tidy;
    HeldIffKept(owners, es, p, k);
    TidyRuns(owners, es);
  }
}
