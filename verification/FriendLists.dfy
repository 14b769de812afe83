/** The friend list record and the three edits the link saga makes to it. Each edit
    looks at a list that was just loaded and either settles without writing or
    proposes a new list for a compare-and-swap. */
module FriendLists {
  const MAX_FRIENDS: nat := 100

  type PlayerId = nat
  type RelationId = nat

  /** The saga key: the digest of (code, redeemer), taken to be collision free. */
  datatype Link = Link(code: string, redeemer: PlayerId)

  datatype Entry = Entry(friend: PlayerId, name: string, relation: RelationId)

  /** A held slot. Every reservation the code writes has status ACTIVE. */
  datatype Reservation = Reservation(link: Link, friend: PlayerId)

  datatype FriendList = FriendList(
    entries: seq<Entry>, reservations: seq<Reservation>, activeCount: nat, reservedCount: nat)

  const EMPTY_LIST := FriendList([], [], 0, 0)

  datatype Plan = Settled(ok: bool) | Write(list: FriendList)

  predicate HasFriend(l: FriendList, friend: PlayerId) {
    exists i :: 0 <= i < |l.entries| && l.entries[i].friend == friend
  }

  predicate HasRelation(l: FriendList, relation: RelationId) {
    exists i :: 0 <= i < |l.entries| && l.entries[i].relation == relation
  }

  predicate HasEntry(l: FriendList, friend: PlayerId, relation: RelationId) {
    exists i :: 0 <= i < |l.entries| && l.entries[i].friend == friend && l.entries[i].relation == relation
  }

  predicate Reserves(rs: seq<Reservation>, link: Link) {
    exists i :: 0 <= i < |rs| && rs[i].link == link
  }

  /** The reservations of other links, in order. */
  function Without(rs: seq<Reservation>, link: Link): seq<Reservation> {
    if rs == [] then []
    else if rs[|rs| - 1].link == link then Without(rs[..|rs| - 1], link)
    else Without(rs[..|rs| - 1], link) + [rs[|rs| - 1]]
  }

  function PlanReserve(l: FriendList, link: Link, friend: PlayerId): Plan {
    if HasFriend(l, friend) || Reserves(l.reservations, link) then Settled(true)
    else if l.activeCount + l.reservedCount >= MAX_FRIENDS then Settled(false)
    else Write(l.(reservations := l.reservations + [Reservation(link, friend)],
                  reservedCount := l.reservedCount + 1))
  }

  function Freed(l: FriendList, link: Link): FriendList {
    l.(reservations := Without(l.reservations, link),
       reservedCount := if Reserves(l.reservations, link) && l.reservedCount > 0
                        then l.reservedCount - 1 else l.reservedCount)
  }

  function PlanConsume(
    l: FriendList, link: Link, friend: PlayerId, name: string, relation: RelationId): Plan
  {
    if HasRelation(l, relation) then Settled(true)
    else
      var freed := Freed(l, link);
      Write(freed.(entries := freed.entries + [Entry(friend, name, relation)],
                   activeCount := freed.activeCount + 1))
  }

  function PlanRelease(l: FriendList, link: Link): Plan {
    if Reserves(l.reservations, link) then Write(Freed(l, link)) else Settled(true)
  }

  // ---------------------------------------------------------------- invariant

  predicate DistinctLinks(rs: seq<Reservation>) {
    forall i, j :: 0 <= i < j < |rs| ==> rs[i].link != rs[j].link
  }

  predicate DistinctFriends(es: seq<Entry>) {
    forall i, j :: 0 <= i < j < |es| ==> es[i].friend != es[j].friend
  }

  /** The counters count, nothing is listed twice and the cap is respected. */
  predicate WellCounted(l: FriendList) {
    && l.activeCount == |l.entries|
    && l.reservedCount == |l.reservations|
    && DistinctLinks(l.reservations)
    && DistinctFriends(l.entries)
    && l.activeCount + l.reservedCount <= 100
  }

  /** Filtering drops exactly the reservations of `link` and keeps the rest. */
  lemma {:induction false} WithoutSpec(rs: seq<Reservation>, link: Link)
    ensures !Reserves(Without(rs, link), link)
    ensures forall other :: other != link ==> (Reserves(Without(rs, link), other) <==> Reserves(rs, other))
    ensures forall r :: r in Without(rs, link) <==> r in rs && r.link != link
    ensures DistinctLinks(rs) ==>
      && DistinctLinks(Without(rs, link))
      && |Without(rs, link)| == |rs| - (if Reserves(rs, link) then 1 else 0)
  {
    if rs != [] {
      var front, last := rs[..|rs| - 1], rs[|rs| - 1];
      WithoutSpec(front, link);
      assert rs == front + [last];
      var w := Without(front, link);
      forall other | other != link
        ensures Reserves(Without(rs, link), other) <==> Reserves(rs, other)
      {
        ReservesAppend(front, last, other);
        ReservesAppend(w, last, other);
      }
      ReservesAppend(front, last, link);
      ReservesAppend(w, last, link);
      if DistinctLinks(rs) {
        assert DistinctLinks(front);
        assert !Reserves(front, last.link);
        assert last.link != link ==> !Reserves(w, last.link);
      }
    }
  }

  lemma ReservesAppend(rs: seq<Reservation>, r: Reservation, link: Link)
    ensures Reserves(rs + [r], link) <==> Reserves(rs, link) || r.link == link
  {
    if Reserves(rs, link) {
      var i :| 0 <= i < |rs| && rs[i].link == link;
      assert (rs + [r])[i].link == link;
    }
    if r.link == link {
      assert (rs + [r])[|rs|].link == link;
    }
  }

  /** Releasing a reservation keeps the counters exact and frees at most that slot. */
  lemma FreedKeeps(l: FriendList, link: Link)
    requires WellCounted(l)
    ensures WellCounted(Freed(l, link))
    ensures !Reserves(Freed(l, link).reservations, link)
    ensures Freed(l, link).reservedCount == l.reservedCount - (if Reserves(l.reservations, link) then 1 else 0)
  {
    WithoutSpec(l.reservations, link);
  }

  /** A reservation is only ever added below the cap, and then it is there. */
  lemma ReserveKeeps(l: FriendList, link: Link, friend: PlayerId)
    requires WellCounted(l) && PlanReserve(l, link, friend).Write?
    ensures WellCounted(PlanReserve(l, link, friend).list)
    ensures Reserves(PlanReserve(l, link, friend).list.reservations, link)
    ensures forall other :: Reserves(l.reservations, other) ==> Reserves(PlanReserve(l, link, friend).list.reservations, other)
  {
    forall other ensures Reserves(l.reservations + [Reservation(link, friend)], other) <==>
                         Reserves(l.reservations, other) || other == link
    {
      ReservesAppend(l.reservations, Reservation(link, friend), other);
    }
  }

  /** Turning a reservation into an entry keeps the list well counted exactly when
      the entry replaces a held slot or there was a free one. A caller can check
      the condition on the list it loaded. */
  lemma ConsumeKeepsIff(l: FriendList, link: Link, friend: PlayerId, name: string, relation: RelationId)
    requires WellCounted(l) && !HasFriend(l, friend) && !HasRelation(l, relation)
    ensures PlanConsume(l, link, friend, name, relation).Write?
    ensures WellCounted(PlanConsume(l, link, friend, name, relation).list)
      <==> Reserves(l.reservations, link) || l.activeCount + l.reservedCount < 100
  {
    FreedKeeps(l, link);
    var next := PlanConsume(l, link, friend, name, relation).list;
    assert DistinctFriends(next.entries) by {
      forall i, j | 0 <= i < j < |next.entries| ensures next.entries[i].friend != next.entries[j].friend {
        assert next.entries[i] == l.entries[i];
      }
    }
  }

  /** Consuming frees the link's own slot unless the relation was projected already:
      then the code returns early and a held slot stays held. */
  lemma ConsumeFreesIff(l: FriendList, link: Link, friend: PlayerId, name: string, relation: RelationId)
    requires WellCounted(l) && Reserves(l.reservations, link)
    ensures var after := PlanConsume(l, link, friend, name, relation);
      (after.Write? && !Reserves(after.list.reservations, link)) <==> !HasRelation(l, relation)
  {
    FreedKeeps(l, link);
  }

  // ------------------------------------------------------- the loops themselves

  /** reserveSlot's look at a loaded list. */
  method ReserveOn(list: FriendList, link: Link, friend: PlayerId) returns (plan: Plan)
    ensures plan == PlanReserve(list, link, friend)
    ensures plan == Settled(true) <==>
      (exists e :: e in list.entries && e.friend == friend) || (exists r :: r in list.reservations && r.link == link)
    ensures plan.Write? <==>
      && (forall e :: e in list.entries ==> e.friend != friend) && (forall r :: r in list.reservations ==> r.link != link)
      && list.activeCount + list.reservedCount < 100
    ensures plan.Write? ==>
      plan.list == FriendList(list.entries, list.reservations + [Reservation(link, friend)],
                              list.activeCount, list.reservedCount + 1)
  {
    for i := 0 to |list.entries|
      invariant forall j :: 0 <= j < i ==> list.entries[j].friend != friend
    {
      if list.entries[i].friend == friend {
        return Settled(true);
      }
    }
    for i := 0 to |list.reservations|
      invariant forall j :: 0 <= j < i ==> list.reservations[j].link != link
    {
      if list.reservations[i].link == link {
        return Settled(true);
      }
    }
    if list.activeCount + list.reservedCount >= MAX_FRIENDS {
      return Settled(false);
    }
    return Write(list.(reservations := list.reservations + [Reservation(link, friend)],
                       reservedCount := list.reservedCount + 1));
  }

  /** The filtering loop shared by consumeReservation and releaseReservation. */
  method DropReservations(rs: seq<Reservation>, link: Link) returns (remaining: seq<Reservation>, removed: bool)
    ensures remaining == Without(rs, link)
    ensures removed <==> Reserves(rs, link)
  {
    remaining, removed := [], false;
    for i := 0 to |rs|
      invariant remaining == Without(rs[..i], link)
      invariant removed <==> Reserves(rs[..i], link)
    {
      assert rs[..i + 1] == rs[..i] + [rs[i]];
      ReservesAppend(rs[..i], rs[i], link);
      if rs[i].link == link {
        removed := true;
      } else {
        remaining := remaining + [rs[i]];
      }
    }
    assert rs[..|rs|] == rs;
  }

  /** consumeReservation's look at a loaded list. */
  method ConsumeOn(list: FriendList, link: Link, friend: PlayerId, name: string, relation: RelationId)
    returns (plan: Plan)
    ensures plan == PlanConsume(list, link, friend, name, relation)
    ensures plan == Settled(true) <==> exists e :: e in list.entries && e.relation == relation
    ensures plan != Settled(true) ==>
      && plan.Write? && plan.list.entries == list.entries + [Entry(friend, name, relation)]
      && plan.list.activeCount == list.activeCount + 1
      && (forall r :: r in plan.list.reservations <==> r in list.reservations && r.link != link)
      && plan.list.reservedCount ==
           list.reservedCount - if list.reservedCount > 0 && exists r :: r in list.reservations && r.link == link then 1 else 0
  {
    for i := 0 to |list.entries|
      invariant forall j :: 0 <= j < i ==> list.entries[j].relation != relation
    {
      if list.entries[i].relation == relation {
        return Settled(true);
      }
    }
    var remaining, removed := DropReservations(list.reservations, link);
    WithoutSpec(list.reservations, link);
    var reservedCount := list.reservedCount;
    if removed && reservedCount > 0 {
      reservedCount := reservedCount - 1;
    }
    return Write(FriendList(list.entries + [Entry(friend, name, relation)], remaining,
                            list.activeCount + 1, reservedCount));
  }

  /** releaseReservation's look at a loaded list. */
  method ReleaseOn(list: FriendList, link: Link) returns (plan: Plan)
    ensures plan == PlanRelease(list, link)
    ensures plan == Settled(true) <==> forall r :: r in list.reservations ==> r.link != link
    ensures plan != Settled(true) ==>
      && plan.Write? && plan.list.entries == list.entries && plan.list.activeCount == list.activeCount
      && (forall r :: r in plan.list.reservations <==> r in list.reservations && r.link != link)
      && plan.list.reservedCount == list.reservedCount - if list.reservedCount > 0 then 1 else 0
  {
    var remaining, removed := DropReservations(list.reservations, link);
    WithoutSpec(list.reservations, link);
    if !removed {
      return Settled(true);
    }
    var reservedCount := list.reservedCount;
    if reservedCount > 0 {
      reservedCount := reservedCount - 1;
    }
    return Write(FriendList(list.entries, remaining, list.activeCount, reservedCount));
  }
}
