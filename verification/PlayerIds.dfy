/** Player IDs come from one counter row: any number of callers read it and try to
    raise it, each at most eight times, over a store that may refuse a call or lose
    its reply. */
module PlayerIds {
  import opened Common

  const MAX_CAS_ATTEMPTS: nat := 8
  const MAX_UINT64: nat := 0xFFFF_FFFF_FFFF_FFFF

  datatype Call = NoCall | Get | Seed | Bump(next: nat, version: nat)

  datatype Reply = Failed | NotFound | AlreadyExists | Done | Found(next: nat, version: nat)

  datatype Outcome = Allocated(id: nat) | StoreFailed | Exhausted | TooManyConflicts

  datatype Driver =
    | Getting(attempt: nat)
    | Seeding(attempt: nat)
    | Bumping(attempt: nat, next: nat, version: nat)
    | Over(outcome: Outcome)

  function Retry(attempt: nat): Driver {
    if attempt + 1 < MAX_CAS_ATTEMPTS then Getting(attempt + 1) else Over(TooManyConflicts)
  }

  function CallOf(d: Driver): Call {
    match d
    case Getting(_) => Get
    case Seeding(_) => Seed
    case Bumping(_, next, version) => Bump(next + 1, version)
    case Over(_) => NoCall
  }

  function Feed(d: Driver, r: Reply): Driver {
    match d
    case Getting(n) =>
      if r.NotFound? then Seeding(n)
      else if !r.Found? then Over(StoreFailed)
      else if r.next == 0 || r.next == MAX_UINT64 then Over(Exhausted)
      else Bumping(n, r.next, r.version)
    case Seeding(n) =>
      if r.Done? then Over(Allocated(1)) else if r.AlreadyExists? then Retry(n) else Over(StoreFailed)
    case Bumping(n, next, _) => if r.Done? then Over(Allocated(next)) else Retry(n)
    case Over(_) => d
  }

  /** The counter row and every caller. */
  datatype World = World(counter: Option<Row<nat>>, drivers: map<nat, Driver>)

  function Perform(counter: Option<Row<nat>>, c: Call): (Option<Row<nat>>, Reply) {
    match c
    case NoCall => (counter, Failed)
    case Get => (counter, if counter.None? then NotFound else Found(counter.value.value, counter.value.version))
    case Seed => if counter.None? then (Some(Row(2, 1)), Done) else (counter, AlreadyExists)
    case Bump(next, v) =>
      if counter.Some? && counter.value.version == v then (Some(Row(next, v + 1)), Done) else (counter, Failed)
  }

  datatype Event = Start(id: nat) | Move(id: nat, fault: Fault)

  function Step(w: World, e: Event): World {
    match e
    case Start(id) => if id in w.drivers then w else w.(drivers := w.drivers[id := Getting(0)])
    case Move(id, fault) =>
      if id !in w.drivers then w
      else
        var d := w.drivers[id];
        var (counter, r) := Perform(w.counter, CallOf(d));
        match fault {
          case Fine => World(counter, w.drivers[id := Feed(d, r)])
          case Refuse => w.(drivers := w.drivers[id := Feed(d, Failed)])
          case Lose => World(counter, w.drivers[id := Feed(d, Failed)])
        }
  }

  function RunAll(w: World, es: seq<Event>): World
    decreases |es|
  {
    if es == [] then w else RunAll(Step(w, es[0]), es[1..])
  }

  predicate Has(d: Driver, id: nat) { d.Over? && d.outcome == Allocated(id) }

  predicate DriverOK(w: World, d: Driver) {
    match d
    case Bumping(_, next, v) =>
      && 0 < next < MAX_UINT64 && w.counter.Some? && v <= w.counter.value.version
      && next <= w.counter.value.value
      && (v == w.counter.value.version ==> w.counter.value.value == next)
    case Over(o) =>
      && (o.Allocated? ==> w.counter.Some? && 0 < o.id < w.counter.value.value)
      && (o.Exhausted? ==> w.counter.Some? && w.counter.value.value == 0xFFFF_FFFF_FFFF_FFFF)
    case _ => true
  }

  ghost predicate Inv(w: World) {
    && (w.counter.Some? ==> 2 <= w.counter.value.value <= MAX_UINT64)
    && (forall i :: i in w.drivers ==> DriverOK(w, w.drivers[i]))
    && (forall i, j, id: nat :: i in w.drivers && j in w.drivers && Has(w.drivers[i], id) && Has(w.drivers[j], id) ==> i == j)
  }

  /** The counter never goes back, and changes only upward. */
  predicate Later(w: World, t: World) {
    && (w.counter.Some? ==> t.counter.Some?)
    && (w.counter.Some? ==> (
          && w.counter.value.version <= t.counter.value.version && w.counter.value.value <= t.counter.value.value
          && (w.counter.value.version == t.counter.value.version ==> t.counter == w.counter)))
  }

  lemma PerformKeeps(w: World, d: Driver)
    requires Inv(w) && DriverOK(w, d)
    ensures var t := w.(counter := Perform(w.counter, CallOf(d)).0);
      && Later(w, t) && (t.counter.Some? ==> 2 <= t.counter.value.value <= MAX_UINT64)
      && DriverOK(t, Feed(d, Failed)) && DriverOK(t, Feed(d, Perform(w.counter, CallOf(d)).1))
  {
  }

  /** A new allocation is an ID nobody holds. */
  lemma NewIdIsNew(w: World, d: Driver, id: nat, i: nat)
    requires Inv(w) && DriverOK(w, d) && i in w.drivers && Has(w.drivers[i], id)
    requires !d.Over?
    ensures !Has(Feed(d, Perform(w.counter, CallOf(d)).1), id)
  {
    assert DriverOK(w, w.drivers[i]);
  }

  lemma StepKeeps(w: World, e: Event)
    requires Inv(w)
    ensures Inv(Step(w, e)) && Later(w, Step(w, e))
  {
    if e.Move? && e.id in w.drivers {
      hide Perform, Feed, CallOf;
      var d, t := w.drivers[e.id], Step(w, e);
      PerformKeeps(w, d);
      ForgetReply(d);
      forall i | i in t.drivers ensures DriverOK(t, t.drivers[i]) {
        if i != e.id { assert DriverOK(w, w.drivers[i]); }
      }
      forall i, id: nat | i in w.drivers && i != e.id && Has(w.drivers[i], id) ensures !Has(t.drivers[e.id], id) {
        if !d.Over? { NewIdIsNew(w, d, id, i); }
        else { OverStays(d, Failed); OverStays(d, Perform(w.counter, CallOf(d)).1); }
      }
    }
  }

  lemma ForgetReply(d: Driver)
    ensures !d.Over? ==> forall id: nat :: !Has(Feed(d, Failed), id)
  {
  }

  lemma OverStays(d: Driver, r: Reply)
    requires d.Over?
    ensures Feed(d, r) == d
  {
  }

  lemma {:induction false} RunKeeps(w: World, es: seq<Event>)
    requires Inv(w)
    ensures Inv(RunAll(w, es)) && Later(w, RunAll(w, es))
    decreases |es|
  {
    hide Inv, Step;
    if es != [] {
      StepKeeps(w, es[0]);
      RunKeeps(Step(w, es[0]), es[1..]);
    }
  }

  /** Over every interleaving, with lost and refused calls, no two callers are ever
      given the same ID, and every ID given is positive and below the counter. */
  lemma AllocationsAreDistinct(es: seq<Event>)
    ensures var t := RunAll(World(None, map[]), es);
      && (forall i, j, id: nat :: i in t.drivers && j in t.drivers && Has(t.drivers[i], id) && Has(t.drivers[j], id) ==> i == j)
      && (forall i, id: nat :: i in t.drivers && Has(t.drivers[i], id) ==> t.counter.Some? && 0 < id < t.counter.value.value)
      && (forall i :: i in t.drivers && t.drivers[i] == Over(Exhausted) ==>
            t.counter.Some? && t.counter.value.value == 0xFFFF_FFFF_FFFF_FFFF)
  {
    var t := RunAll(World(None, map[]), es);
    RunKeeps(World(None, map[]), es);
    forall i, id: nat | i in t.drivers && Has(t.drivers[i], id) ensures t.counter.Some? && 0 < id < t.counter.value.value {
      assert DriverOK(t, t.drivers[i]);
    }
  }

  predicate AllFine(es: seq<Event>) { forall i :: 0 <= i < |es| ==> es[i].Move? ==> es[i].fault.Fine? }

  /** No caller is told that the store failed unless a call was refused or its reply lost. */
  lemma {:induction false} FailureNeedsAFault(w: World, es: seq<Event>)
    requires AllFine(es) && forall i :: i in w.drivers ==> w.drivers[i] != Over(StoreFailed)
    ensures forall i :: i in RunAll(w, es).drivers ==> RunAll(w, es).drivers[i] != Over(StoreFailed)
    decreases |es|
  {
    if es != [] {
      assert es[0].Move? ==> es[0].fault.Fine?;
      FailureNeedsAFault(Step(w, es[0]), es[1..]);
    }
  }

  /** A caller nobody disturbs takes the counter's number and raises it by one; the first
      one ever takes 1 and leaves 2. It gives up only on a counter of zero, or of the
      largest number, and then leaves it. */
  lemma AllocateAlone(w: World, id: nat)
    requires id !in w.drivers
    ensures var t := RunAll(w, [Start(id), Move(id, Fine), Move(id, Fine)]);
      && t.drivers.Keys == w.drivers.Keys + {id}
      && (forall i :: i in w.drivers ==> t.drivers[i] == w.drivers[i])
      && match w.counter {
           case None => t.drivers[id] == Over(Allocated(1)) && t.counter == Some(Row(2, 1))
           case Some(row) =>
             if 0 < row.value < 0xFFFF_FFFF_FFFF_FFFF
             then t.drivers[id] == Over(Allocated(row.value)) && t.counter == Some(Row(row.value + 1, row.version + 1))
             else row.value <= 0xFFFF_FFFF_FFFF_FFFF ==> t.drivers[id] == Over(Exhausted) && t.counter == w.counter
         }
  {
    var u := Step(w, Start(id));
    var v := Step(u, Move(id, Fine));
    var t := Step(v, Move(id, Fine));
    assert RunAll(w, [Start(id), Move(id, Fine), Move(id, Fine)]) == t by {
      RunThree(w, Start(id), Move(id, Fine), Move(id, Fine));
    }
  }

  lemma RunThree(w: World, a: Event, b: Event, c: Event)
    ensures RunAll(w, [a, b, c]) == Step(Step(Step(w, a), b), c)
  {
    hide Step;
    assert [a, b, c][1..] == [b, c] && [b, c][1..] == [c] && [c][1..] == [];
    assert RunAll(Step(w, a), [b, c]) == RunAll(Step(Step(w, a), b), [c]);
    assert RunAll(Step(Step(w, a), b), [c]) == RunAll(Step(Step(Step(w, a), b), c), []);
  }

  // ------------------------------------------------------------- the code

  /** The store as one caller sees it. */
  class Wire {
    const script: nat -> Reply
    var served: nat
    ghost var driver: Driver

    constructor (script: nat -> Reply, ghost driver: Driver)
      ensures this.script == script && served == 0 && this.driver == driver
    {
      this.script, served, this.driver := script, 0, driver;
    }

    /** The code may only issue the call its driver is waiting on. */
    method Send(c: Call) returns (r: Reply)
      requires c == CallOf(driver)
      modifies this
      ensures r == script(old(served)) && driver == Feed(old(driver), r) && served == old(served) + 1
    {
      r := script(served);
      served := served + 1;
      driver := Feed(driver, r);
    }
  }

  /** allocatePlayerID as written, in step with its driver: it gives up for conflicts
      after eight reads, each followed by a write that failed. */
  method AllocatePlayerID(w: Wire) returns (o: Outcome)
    requires w.driver == Getting(0)
    modifies w
    ensures w.driver == Over(o)
    ensures w.served <= old(w.served) + 16
    ensures o == TooManyConflicts ==> w.served == old(w.served) + 16
  {
    for attempt := 0 to MAX_CAS_ATTEMPTS
      invariant w.served == old(w.served) + 2 * attempt
      invariant w.driver == if attempt < MAX_CAS_ATTEMPTS then Getting(attempt) else Over(TooManyConflicts)
    {
      var r := w.Send(Get);
      if r.NotFound? {
        var s := w.Send(Seed);
        if s.Done? {
          return Allocated(1);
        } else if !s.AlreadyExists? {
          return StoreFailed;
        }
        continue;
      }
      if !r.Found? { return StoreFailed; }
      if r.next == 0 || r.next == MAX_UINT64 { return Exhausted; }
      var free := r.next;
      var u := w.Send(Bump(r.next + 1, r.version));
      if u.Done? { return Allocated(free); }
    }
    return TooManyConflicts;
  }
}
