/** The shared min-heap of actor deadlines with lazy deletion. The heap keeps stale
    nodes until they surface; seen from outside it is a map from each player to its
    latest deadline. */
module DeadlineBook {
  import opened Common

  /** A heap node. Only its position changes after it was pushed. */
  class Deadline {
    const player: nat
    const deadline: int
    const generation: nat
    var index: int

    constructor (player: nat, deadline: int, generation: nat)
      ensures this.player == player && this.deadline == deadline && this.generation == generation
    {
      this.player, this.deadline, this.generation, this.index := player, deadline, generation, 0;
    }
  }

  /** actorDeadlineHeap.Less on two nodes. */
  predicate Less(a: Deadline, b: Deadline) {
    if a.deadline == b.deadline then a.player < b.player else a.deadline < b.deadline
  }

  lemma LessIsAnOrder(a: Deadline, b: Deadline, c: Deadline)
    ensures !Less(b, b) && !(Less(a, b) && Less(b, a))
    ensures !Less(a, b) && !Less(b, c) ==> !Less(a, c)
  {}

  function Parent(i: int): int { (i - 1) / 2 }

  ghost predicate Ordered(h: seq<Deadline>) {
    forall i :: 1 <= i < |h| ==> !Less(h[i], h[Parent(i)])
  }

  /** Ordered but for node `j`, which may still have to rise. */
  ghost predicate Rising(h: seq<Deadline>, j: int) {
    && (forall i :: 1 <= i < |h| && i != j ==> !Less(h[i], h[Parent(i)]))
    && (forall c :: 1 <= c < |h| && j > 0 && Parent(c) == j ==> !Less(h[c], h[Parent(j)]))
  }

  /** The first `n` nodes are ordered but for node `j`, which may still have to sink. */
  ghost predicate Sinking(h: seq<Deadline>, j: int, n: int)
    requires n <= |h|
  {
    && (forall i :: 1 <= i < n && Parent(i) != j ==> !Less(h[i], h[Parent(i)]))
    && (forall c :: 1 <= c < n && j > 0 && Parent(c) == j ==> !Less(h[c], h[Parent(j)]))
  }

  ghost predicate SameNodes(a: seq<Deadline>, b: seq<Deadline>) {
    |a| == |b| && (forall d :: d in a ==> d in b) && (forall d :: d in b ==> d in a)
  }

  function Swapped(h: seq<Deadline>, i: nat, j: nat): seq<Deadline>
    requires i < |h| && j < |h|
  {
    h[i := h[j]][j := h[i]]
  }

  lemma SwappedNodes(h: seq<Deadline>, i: nat, j: nat)
    requires i < |h| && j < |h|
    ensures SameNodes(Swapped(h, i, j), h)
  {
    var s := Swapped(h, i, j);
    forall d | d in h ensures d in s {
      var k :| 0 <= k < |h| && h[k] == d;
      if k == i { assert s[j] == d; } else if k == j { assert s[i] == d; } else { assert s[k] == d; }
    }
  }

  lemma RiseOne(h: seq<Deadline>, j: nat)
    requires 0 < j < |h| && Rising(h, j) && Less(h[j], h[Parent(j)])
    ensures Rising(Swapped(h, Parent(j), j), Parent(j))
  {
    var p := Parent(j);
    var s := Swapped(h, p, j);
    forall i | 1 <= i < |s| && i != p ensures !Less(s[i], s[Parent(i)]) {
      if i == j {
      } else if Parent(i) == j {
      } else if Parent(i) == p {
        assert !Less(h[i], h[p]);
      }
    }
    forall c | 1 <= c < |s| && p > 0 && Parent(c) == p ensures !Less(s[c], s[Parent(p)]) {
      assert !Less(h[p], h[Parent(p)]);
      if c != j { assert !Less(h[c], h[p]); }
    }
  }

  lemma SinkOne(h: seq<Deadline>, j: nat, n: nat, c: nat)
    requires n <= |h| && j < n && Sinking(h, j, n)
    requires 1 <= c < n && Parent(c) == j && Less(h[c], h[j])
    requires forall o :: 1 <= o < n && Parent(o) == j ==> !Less(h[o], h[c])
    ensures Sinking(Swapped(h, j, c), c, n)
  {
    var s := Swapped(h, j, c);
    forall i | 1 <= i < n && Parent(i) != c ensures !Less(s[i], s[Parent(i)]) {
      if i == c {
      } else if Parent(i) == j {
      } else if i == j {
        assert !Less(h[c], h[Parent(j)]);
      }
    }
    forall k | 1 <= k < n && Parent(k) == c ensures !Less(s[k], s[Parent(c)]) {
      assert !Less(h[k], h[c]);
    }
  }

  /** The root of an ordered heap is least. */
  lemma {:induction false} RootLeast(h: seq<Deadline>, i: nat)
    requires Ordered(h) && i < |h|
    ensures !Less(h[i], h[0])
  {
    if i > 0 { RootLeast(h, Parent(i)); }
  }

  /** The view of one entry the callers get. */
  datatype Tick = Tick(player: nat, deadline: int, generation: nat)

  predicate IsTick(d: Deadline, t: Tick) { d.player == t.player && d.deadline == t.deadline && d.generation == t.generation }

  /** One node more. */
  ghost predicate Gained(before: seq<Deadline>, after: seq<Deadline>, t: Tick) {
    && (forall d :: d in before ==> d in after)
    && exists node :: node in after && IsTick(node, t) && forall d :: d in after ==> d in before || d == node
  }

  /** The order of the abstract map: by deadline, then by player. */
  predicate Sooner(p: nat, t: int, q: nat, u: int) { t < u || (t == u && p < q) }

  predicate Fired(fired: seq<Tick>, p: nat, t: int) {
    exists i :: 0 <= i < |fired| && fired[i].player == p && fired[i].deadline == t
  }

  /** Part of the way through a drain: what fired is in order, and is exactly what
      left the plan, all of it due and all of it sooner than what is left. */
  ghost predicate Drained(fired: seq<Tick>, before: map<nat, int>, plan: map<nat, int>, now: int) {
    && (forall p :: p in plan ==> p in before && plan[p] == before[p])
    && (forall p, t :: Fired(fired, p, t) <==> p in before && p !in plan && before[p] == t)
    && (forall p :: p in before && p !in plan ==> before[p] <= now)
    && (forall i, q :: 0 <= i < |fired| && q in plan ==> Sooner(fired[i].player, fired[i].deadline, q, plan[q]))
    && (forall i, j :: 0 <= i < j < |fired| ==>
          Sooner(fired[i].player, fired[i].deadline, fired[j].player, fired[j].deadline))
  }

  ghost predicate LeastOf(plan: map<nat, int>, player: nat, deadline: int) {
    && player in plan && plan[player] == deadline
    && forall q :: q in plan && q != player ==> Sooner(player, deadline, q, plan[q])
  }

  lemma FiredMore(fired: seq<Tick>, x: Tick, p: nat, t: int)
    ensures Fired(fired + [x], p, t) <==> Fired(fired, p, t) || (x.player == p && x.deadline == t)
  {
    var more := fired + [x];
    if Fired(fired, p, t) {
      var i :| 0 <= i < |fired| && fired[i].player == p && fired[i].deadline == t;
      assert more[i].player == p;
    }
    assert more[|fired|] == x;
  }

  lemma DrainOne(fired: seq<Tick>, before: map<nat, int>, plan: map<nat, int>, now: int, next: Tick)
    requires Drained(fired, before, plan, now)
    requires LeastOf(plan, next.player, next.deadline) && next.deadline <= now
    ensures Drained(fired + [next], before, plan - {next.player}, now)
  {
    forall p, t
      ensures Fired(fired + [next], p, t) <==> p in before && p !in plan - {next.player} && before[p] == t
    {
      FiredMore(fired, next, p, t);
    }
  }

  lemma SmallerPlan(plan: map<nat, int>, p: nat)
    requires p in plan
    ensures |plan - {p}| < |plan|
  {
    assert (plan - {p})[p := plan[p]] == plan;
  }

  lemma DrainedAll(fired: seq<Tick>, before: map<nat, int>, plan: map<nat, int>, now: int)
    requires Drained(fired, before, plan, now)
    requires forall p :: p in plan ==> plan[p] > now
    ensures forall p, t :: Fired(fired, p, t) <==> p in before && before[p] == t && t <= now
    ensures plan == map p | p in before && before[p] > now :: before[p]
  {
  }

  /** The node carries the generation the book expects of its player, 0 when none. */
  predicate LiveIn(latest: map<nat, nat>, d: Deadline) {
    (if d.player in latest then latest[d.player] else 0) == d.generation
  }

  /** Every live node is its player's planned deadline, and every plan has its node. */
  ghost predicate PlannedIn(h: seq<Deadline>, latest: map<nat, nat>, plan: map<nat, int>) {
    && (forall d :: d in h && LiveIn(latest, d) ==> d.player in plan && plan[d.player] == d.deadline)
    && (forall p :: p in plan ==> exists d :: d in h && LiveIn(latest, d) && d.player == p)
  }

  /** Adding a node keeps the heap in step with the plan if and only if every node left
      over with the same player and generation has the same deadline: any other would
      be revived. */
  lemma AddKeepsIff(h: seq<Deadline>, k: seq<Deadline>, latest: map<nat, nat>, plan: map<nat, int>, node: Deadline)
    requires PlannedIn(h, latest, plan)
    requires forall d :: d in k <==> d in h || d == node
    ensures PlannedIn(k, latest[node.player := node.generation], plan[node.player := node.deadline])
      <==> forall d :: d in h && d.player == node.player && d.generation == node.generation ==> d.deadline == node.deadline
  {
    var later := latest[node.player := node.generation];
    var next := plan[node.player := node.deadline];
    forall p | p in next ensures exists d :: d in k && LiveIn(later, d) && d.player == p {
      if p == node.player {
        assert node in k && LiveIn(later, node);
      } else {
        var d :| d in h && LiveIn(latest, d) && d.player == p;
        assert d in k && LiveIn(later, d);
      }
    }
    if d :| d in h && d.player == node.player && d.generation == node.generation && d.deadline != node.deadline {
      assert d in k && LiveIn(later, d);
    }
  }

  /** Dropping stale nodes keeps the heap in step with the plan. */
  lemma StillPlanned(h: seq<Deadline>, k: seq<Deadline>, latest: map<nat, nat>, plan: map<nat, int>)
    requires PlannedIn(h, latest, plan)
    requires forall d :: d in k ==> d in h
    requires forall d :: d in h && LiveIn(latest, d) ==> d in k
    ensures PlannedIn(k, latest, plan)
  {
    forall p | p in plan ensures exists d :: d in k && LiveIn(latest, d) && d.player == p {
      var d :| d in h && LiveIn(latest, d) && d.player == p;
      assert d in k;
    }
  }

  class ActorDeadlineBook {
    var heap: seq<Deadline>
    var latest: map<nat, nat>

    /** What the book means: the live deadline of each player. */
    ghost var plan: map<nat, int>

    /** The nodes the book may write to. */
    ghost var repr: set<Deadline>

    ghost predicate Indexed()
      reads this, repr
    {
      forall k :: 0 <= k < |heap| ==> heap[k] in repr && heap[k].index == k
    }

    /** The generation the book expects of a player, 0 when there is none. */
    function Latest(player: nat): nat
      reads this`latest
    {
      if player in latest then latest[player] else 0
    }

    /** No two nodes share player and generation. */
    ghost predicate NoReuse()
      reads this
    {
      && (forall d :: d in heap ==> d.generation != 0)
      && (forall a, b :: a in heap && b in heap && a.player == b.player && a.generation == b.generation ==> a == b)
    }

    ghost predicate Planned()
      reads this
    {
      PlannedIn(heap, latest, plan)
    }

    ghost predicate Valid()
      reads this, repr
    {
      Indexed() && Ordered(heap) && NoReuse() && Planned()
    }

    constructor ()
      ensures Valid() && plan == map[] && heap == [] && repr == {}
    {
      heap, latest, plan, repr := [], map[], map[], {};
    }

    // -------------------------------------------------- container/heap on this heap

    method Swap(i: nat, j: nat)
      requires i < |heap| && j < |heap| && Indexed()
      modifies this`heap, repr
      ensures heap == Swapped(old(heap), i, j) && Indexed()
    {
      heap := heap[i := heap[j]][j := heap[i]];
      heap[i].index := i;
      heap[j].index := j;
    }

    method Up(start: nat)
      requires start < |heap| && Indexed() && Rising(heap, start)
      modifies this`heap, repr
      ensures Indexed() && Ordered(heap) && SameNodes(heap, old(heap))
    {
      var j := start;
      while j > 0 && Less(heap[j], heap[Parent(j)])
        invariant j < |heap| && Indexed() && Rising(heap, j) && SameNodes(heap, old(heap))
      {
        RiseOne(heap, j);
        SwappedNodes(heap, Parent(j), j);
        Swap(Parent(j), j);
        j := Parent(j);
      }
    }

    method Down(n: nat)
      requires 0 < n <= |heap| && Indexed() && Sinking(heap, 0, n)
      modifies this`heap, repr
      ensures Indexed() && SameNodes(heap, old(heap)) && Ordered(heap[..n]) && heap[n..] == old(heap[n..])
    {
      hide Less;
      var i := 0;
      while true
        invariant i < n <= |heap| && Indexed() && Sinking(heap, i, n)
        invariant SameNodes(heap, old(heap)) && heap[n..] == old(heap[n..])
        decreases n - i
      {
        var j := 2 * i + 1;
        if j >= n { return; }
        if j + 1 < n && Less(heap[j + 1], heap[j]) {
          j := j + 1;
        }
        ghost var sibling := if j == 2 * i + 1 && j + 1 < n then j + 1 else 2 * i + 1;
        LessIsAnOrder(heap[sibling], heap[j], heap[i]);
        if !Less(heap[j], heap[i]) { return; }
        assert forall o :: 1 <= o < n && Parent(o) == i ==> o == j || o == sibling;
        SinkOne(heap, i, n, j);
        SwappedNodes(heap, i, j);
        Swap(i, j);
        i := j;
      }
    }

    method HeapPush(x: Deadline)
      requires Indexed() && Ordered(heap) && x !in heap && x in repr
      modifies this`heap, repr
      ensures Indexed() && Ordered(heap)
      ensures forall d :: d in heap <==> d in old(heap) || d == x
    {
      x.index := |heap|;
      heap := heap + [x];
      Up(|heap| - 1);
    }

    method HeapPop() returns (item: Deadline)
      requires heap != [] && Indexed() && Ordered(heap)
      modifies this`heap, repr
      ensures item == old(heap[0]) && Indexed() && Ordered(heap) && |heap| == |old(heap)| - 1
      ensures forall d :: d in heap <==> d in old(heap) && d != item
    {
      ghost var before := heap;
      var n := |heap| - 1;
      SwappedNodes(heap, 0, n);
      Swap(0, n);
      if n > 0 {
        Down(n);
      }
      item := heap[n];
      assert item == before[0];
      ghost var swapped := heap;
      assert forall k :: 0 <= k < n ==> heap[k] != item by {
        assert forall k :: 0 <= k < n ==> heap[k].index != heap[n].index;
      }
      heap := heap[..n];
      item.index := -1;
      assert swapped == heap + [item];
    }

    // ------------------------------------------------------------- the book

    /** A generation must not be one that a node still in the heap carries. */
    ghost predicate FreshFor(player: nat, generation: nat)
      reads this
    {
      forall d :: d in heap ==> !(d.player == player && d.generation == generation)
    }

    /** schedule; the zero time is the zero deadline. The heap stays in step with the
        plan if and only if no node left over with the same player and generation has
        another deadline, and no player can fire twice for one schedule if and only if
        there is no such node at all. */
    method Schedule(player: nat, deadline: int, generation: nat)
      requires Valid()
      modifies this, repr
      ensures fresh(repr - old(repr)) && Indexed() && Ordered(heap)
      ensures var ignored := player == 0 || generation == 0 || deadline == 0;
        && plan == (if ignored then old(plan) else old(plan)[player := deadline])
        && (Planned() <==> ignored || old(Agreeing(player, deadline, generation)))
        && (NoReuse() <==> ignored || old(FreshFor(player, generation)))
        && latest == (if ignored then old(latest) else old(latest)[player := generation])
        && (if ignored then heap == old(heap) else Gained(old(heap), heap, Tick(player, deadline, generation)))
    {
      hide Ordered;
      if player == 0 || generation == 0 || deadline == 0 { return; }
      ghost var h, l, q := heap, latest, plan;
      latest := latest[player := generation];
      var node := new Deadline(player, deadline, generation);
      repr := repr + {node};
      HeapPush(node);
      plan := plan[player := deadline];
      AddKeepsIff(h, heap, l, q, node);
      hide PlannedIn;
      assert node in heap && IsTick(node, Tick(player, deadline, generation));
      if !old(FreshFor(player, generation)) {
        var twin :| twin in h && twin.player == player && twin.generation == generation;
        assert twin in heap && twin != node;
      }
    }

    /** Every node left over with this player and generation has this deadline. */
    ghost predicate Agreeing(player: nat, deadline: int, generation: nat)
      reads this
    {
      forall d :: d in heap && d.player == player && d.generation == generation ==> d.deadline == deadline
    }

    method Cancel(player: nat)
      requires Valid()
      modifies this
      ensures Valid() && heap == old(heap) && repr == old(repr)
      ensures plan == if player == 0 then old(plan) else old(plan) - {player}
    {
      if player == 0 { return; }
      latest := latest - {player};
      plan := plan - {player};
      forall p | p in plan ensures exists d :: d in heap && LiveIn(latest, d) && d.player == p {
        var d :| d in heap && LiveIn(old(latest), d) && d.player == p;
        assert LiveIn(latest, d);
      }
    }

    /** Drop stale nodes until a live one is on top. Nothing live is dropped, whether or
        not the heap is in step with the plan. */
    method SkipStale()
      requires Indexed() && Ordered(heap)
      modifies this`heap, repr
      ensures Indexed() && Ordered(heap) && plan == old(plan) && latest == old(latest)
      ensures heap != [] ==> LiveIn(latest, heap[0])
      ensures forall d :: d in heap ==> d in old(heap)
      ensures forall d :: d in old(heap) && LiveIn(latest, d) ==> d in heap
      ensures old(Valid()) ==> Valid()
    {
      while |heap| > 0 && !LiveIn(latest, heap[0])
        invariant Indexed() && Ordered(heap) && plan == old(plan) && latest == old(latest)
        invariant forall d :: d in heap ==> d in old(heap)
        invariant forall d :: d in old(heap) && LiveIn(latest, d) ==> d in heap
        decreases |heap|
      {
        var stale := HeapPop();
        assert !LiveIn(latest, stale);
      }
      if old(Valid()) { StillPlanned(old(heap), heap, latest, plan); }
    }

    lemma TopIsNext()
      requires Valid() && heap != [] && LiveIn(latest, heap[0])
      ensures LeastOf(plan, heap[0].player, heap[0].deadline)
    {
      var top := heap[0];
      forall q | q in plan && q != top.player ensures Sooner(top.player, top.deadline, q, plan[q]) {
        var d :| d in heap && LiveIn(latest, d) && d.player == q;
        var i :| 0 <= i < |heap| && heap[i] == d;
        RootLeast(heap, i);
      }
    }

    lemma EmptyPlan()
      requires Valid() && heap == []
      ensures plan == map[]
    {
      assert forall p :: p !in plan;
    }

    /** peek: the least live node of the heap; if that is in step with the plan, the least
        planned deadline. It changes nothing that can be observed. */
    method Peek() returns (next: Option<Tick>)
      requires Indexed() && Ordered(heap)
      modifies this`heap, repr
      ensures plan == old(plan) && latest == old(latest)
      ensures forall d :: d in heap ==> d in old(heap)
      ensures next.None? <==> forall d :: d in old(heap) ==> !LiveIn(latest, d)
      ensures next.Some? ==>
        && (exists d :: d in old(heap) && LiveIn(latest, d) && IsTick(d, next.value))
        && (forall d :: d in old(heap) && LiveIn(latest, d) ==>
              !Sooner(d.player, d.deadline, next.value.player, next.value.deadline))
      ensures old(Valid()) ==>
        && Valid() && (next.None? <==> plan == map[])
        && (next.Some? ==> LeastOf(plan, next.value.player, next.value.deadline)
                           && Latest(next.value.player) == next.value.generation)
    {
      SkipStale();
      if |heap| > 0 {
        if old(Valid()) { TopIsNext(); }
        forall d | d in heap ensures !Sooner(d.player, d.deadline, heap[0].player, heap[0].deadline) {
          var i :| 0 <= i < |heap| && heap[i] == d;
          RootLeast(heap, i);
        }
        next := Some(Tick(heap[0].player, heap[0].deadline, heap[0].generation));
        assert IsTick(heap[0], next.value);
        return;
      }
      if old(Valid()) { EmptyPlan(); }
      return None;
    }

    /** popDue: remove and return the least live deadline if it is due. */
    method PopDue(now: int) returns (due: Option<Tick>)
      requires Valid()
      modifies this, repr
      ensures Valid() && latest == old(latest) && repr == old(repr)
      ensures forall d :: d in heap ==> d in old(heap)
      ensures due.None? ==> plan == old(plan) && forall p :: p in plan ==> plan[p] > now
      ensures due.Some? ==>
        && LeastOf(old(plan), due.value.player, due.value.deadline) && due.value.deadline <= now
        && plan == old(plan) - {due.value.player} && Latest(due.value.player) == due.value.generation
    {
      SkipStale();
      if |heap| == 0 {
        EmptyPlan();
        return None;
      }
      TopIsNext();
      if heap[0].deadline > now {
        return None;
      }
      ghost var before := heap;
      var item := HeapPop();
      plan := plan - {item.player};
      forall p | p in plan ensures exists d :: d in heap && LiveIn(latest, d) && d.player == p {
        var d :| d in before && LiveIn(latest, d) && d.player == p;
        assert d in heap;
      }
      return Some(Tick(item.player, item.deadline, item.generation));
    }

    /** The popDue loop of fireDueDeadlines yields exactly the live deadlines that are
        due, each player once, in ascending order, and leaves the others planned. */
    method DrainDue(now: int) returns (fired: seq<Tick>)
      requires Valid()
      modifies this, repr
      ensures Valid() && repr == old(repr) && latest == old(latest)
      ensures forall i :: 0 <= i < |fired| ==> fired[i].generation == Latest(fired[i].player)
      ensures forall i, j :: 0 <= i < j < |fired| ==>
        Sooner(fired[i].player, fired[i].deadline, fired[j].player, fired[j].deadline)
      ensures forall p, t :: Fired(fired, p, t) <==> p in old(plan) && old(plan)[p] == t && t <= now
      ensures plan == map p | p in old(plan) && old(plan)[p] > now :: old(plan)[p]
    {
      hide Ordered, NoReuse, Planned, Indexed;
      fired := [];
      ghost var before := plan;
      while true
        invariant Valid() && repr == old(repr) && latest == old(latest)
        invariant forall i :: 0 <= i < |fired| ==> fired[i].generation == Latest(fired[i].player)
        invariant Drained(fired, before, plan, now)
        decreases |plan|
      {
        ghost var atTop, firedTop := plan, fired;
        var due := PopDue(now);
        if due.None? { break; }
        DrainOne(firedTop, before, atTop, now, due.value);
        fired := fired + [due.value];
        SmallerPlan(atTop, due.value.player);
      }
      DrainedAll(fired, before, plan, now);
    }
  }

  /** An actor that is unloaded and loaded again counts its generations from 1 anew, while
      its old node is still in the heap: after schedule, cancel and schedule with the same
      generation the book answers with the old deadline, not the planned one. */
  method DeadlineRevived(player: nat, first: int, second: int) returns (ghost plan: map<nat, int>, next: Option<Tick>)
    requires player != 0 && first != 0 && second != 0 && first < second
    ensures plan == map[player := second]
    ensures next == Some(Tick(player, first, 1))
  {
    var book := new ActorDeadlineBook();
    book.Schedule(player, first, 1);
    ghost var left: Deadline :| left in book.heap && IsTick(left, Tick(player, first, 1));
    book.Cancel(player);
    book.Schedule(player, second, 1);
    plan := book.plan;
    next := book.Peek();
  }
}
