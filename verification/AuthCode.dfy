/** register, login and advanceSessionGeneration as written, in a world that other
    callers keep changing between any two of their calls: call for call they do what
    their driver does, and they end. */
module AuthCode {
  import opened Common
  import opened AuthSessions
  import opened AuthTheorems

  /** What happens until the next call is answered: steps of other callers, and what the
      environment does to the call. */
  datatype Turn = Turn(others: seq<Event>, fault: Fault)

  predicate Mine(e: Event, id: nat) {
    match e
    case StartRegister(i) => i == id
    case StartLogin(i) => i == id
    case Move(i, _) => i == id
    case Logout(_) => false
    case Validate(_, _) => false
  }

  function Others(es: seq<Event>, id: nat): seq<Event> {
    if es == [] then [] else if Mine(es[0], id) then Others(es[1..], id) else [es[0]] + Others(es[1..], id)
  }

  lemma OthersOnly(es: seq<Event>, id: nat)
    ensures forall i :: 0 <= i < |Others(es, id)| ==> !Mine(Others(es, id)[i], id)
  {
  }

  lemma {:induction false} OthersLeaveMe(w: World, es: seq<Event>, id: nat)
    requires Inv(w) && id in w.drivers && forall i :: 0 <= i < |es| ==> !Mine(es[i], id)
    ensures Inv(RunAll(w, es)) && id in RunAll(w, es).drivers && RunAll(w, es).drivers[id] == w.drivers[id]
    ensures w.name.Some? ==> RunAll(w, es).name.Some?
    decreases |es|
  {
    if es != [] {
      StepKeeps(w, es[0]);
      hide Inv;
      assert Step(w, es[0]).drivers[id] == w.drivers[id];
      hide Step;
      OthersLeaveMe(Step(w, es[0]), es[1..], id);
    }
  }

  /** The store as caller `id` sees it. */
  class Wire {
    const id: nat
    const script: nat -> Turn
    var world: World
    var served: nat

    constructor (world: World, id: nat, script: nat -> Turn)
      requires Inv(world) && id in world.drivers
      ensures Valid() && this.world == world && this.id == id
    {
      this.world, this.id, this.script, served := world, id, script, 0;
    }

    predicate Valid()
      reads this
    {
      Inv(world) && id in world.drivers
    }

    /** The code may only issue the call its driver is waiting on. The name record stays
        once it is there, and its absence or presence is told as it is. */
    method Send(c: Call) returns (r: Reply)
      requires Valid() && c == CallOf(world.drivers[id])
      modifies this
      ensures Valid() && world.drivers[id] == Feed(old(world.drivers[id]), r)
      ensures old(world.name.Some?) ==> world.name.Some?
      ensures c.GetName? && r.NotFound? ==> old(world.name.None?)
      ensures c.InsertName? && r.AlreadyExists? ==> world.name.Some?
    {
      hide Inv, Feed, CallOf;
      var turn := script(served);
      served := served + 1;
      OthersOnly(turn.others, id);
      OthersLeaveMe(world, Others(turn.others, id), id);
      world := RunAll(world, Others(turn.others, id));
      var answered := Perform(world, c).1;
      r := if turn.fault.Fine? then answered else Failed;
      StepKeeps(world, Move(id, turn.fault));
      world := Step(world, Move(id, turn.fault));
    }
  }

  ghost predicate At(w: Wire, d: Driver)
    reads w
  {
    w.Valid() && w.world.drivers[w.id] == d
  }

  /** At most eight attempts, each from fresh copies of both records. The answer is the
      generation the driver is about to insert a session for, or its final outcome. */
  method AdvanceSessionGeneration(w: Wire) returns (generation: nat, failed: Option<Outcome>)
    requires At(w, LogName(0))
    modifies w
    ensures At(w, if failed.None? then LogSession(generation) else Over(failed.value))
  {
    hide Inv, Step, Perform, RunAll;
    generation := 0;
    for attempt := 0 to MAX_CAS_ATTEMPTS
      invariant At(w, if attempt < MAX_CAS_ATTEMPTS then LogName(attempt) else Over(Conflicted))
    {
      var account := w.Send(GetName);
      if !account.Found? || !account.rec.active { return 0, Some(InvalidCredentials); }
      ghost var name := Row(account.rec, account.version);
      assert At(w, LogPlayer(attempt, name));
      var player := w.Send(GetPlayer);
      if !player.Found? || !player.rec.active { return 0, Some(InvalidCredentials); }
      var current := account.rec.generation;
      if player.rec.generation > current { current := player.rec.generation; }
      if current == MAX_UINT64 { return 0, Some(GenerationExhausted); }
      var next := current + 1;
      assert At(w, LogRaise(attempt, name, Row(player.rec, player.version)));
      var raised := w.Send(UpdatePlayer(player.rec.(generation := next), player.version));
      if !raised.Done? { continue; }
      assert w.world.drivers[w.id].LogSettle? && w.world.drivers[w.id].name == name && w.world.drivers[w.id].next == next;
      var settled := w.Send(UpdateName(account.rec.(generation := next), account.version));
      if !settled.Done? { continue; }
      return next, None;
    }
    return 0, Some(Conflicted);
  }

  method Login(w: Wire) returns (o: Outcome)
    requires At(w, LogLoad)
    modifies w
    ensures At(w, Over(o))
  {
    hide Inv;
    var account := w.Send(GetName);
    if !account.Found? || !account.rec.active { return InvalidCredentials; }
    var generation, failed := AdvanceSessionGeneration(w);
    if failed.Some? { return failed.value; }
    var inserted := w.Send(InsertSession(generation));
    if !inserted.Done? { return StoreFailed; }
    return LoggedIn(generation);
  }

  /** register from its first read; a lost race for the name starts it again. It ends
      because the name is then there to be read. */
  method Register(w: Wire) returns (o: Outcome)
    requires At(w, RegLoad)
    modifies w
    ensures At(w, Over(o))
    decreases if w.world.name.Some? then 0 else 1
  {
    hide Inv;
    var account, version := RESERVED, 0;
    var r := w.Send(GetName);
    if r.NotFound? {
      var given := w.Send(AllocateId);
      if !given.Done? { return StoreFailed; }
      var inserted := w.Send(InsertName);
      if inserted.AlreadyExists? {
        o := Register(w);
        return;
      }
      if !inserted.Done? { return StoreFailed; }
      version := inserted.version;
    } else if !r.Found? {
      return StoreFailed;
    } else {
      if r.rec.active { return Unavailable; }
      account, version := r.rec, r.version;
    }
    var player, playerVersion, ok := EnsurePlayerAccount(w, Row(account, version));
    if !ok { return StoreFailed; }
    var inserted := w.Send(InsertSession(1));
    if !inserted.Done? { return StoreFailed; }
    var activated := w.Send(UpdatePlayer(player.(active := true, generation := 1), playerVersion));
    if !activated.Done? { return StoreFailed; }
    var named := w.Send(UpdateName(account.(active := true, generation := 1), version));
    if !named.Done? { return StoreFailed; }
    return Registered;
  }

  method EnsurePlayerAccount(w: Wire, account: Row<Rec>) returns (player: Rec, version: nat, ok: bool)
    requires At(w, RegInsertPlayer(account))
    modifies w
    ensures At(w, if ok then RegSession(account, Row(player, version)) else Over(StoreFailed))
  {
    hide Inv;
    var inserted := w.Send(InsertPlayer);
    if inserted.Done? { return RESERVED, inserted.version, true; }
    if !inserted.AlreadyExists? { return RESERVED, 0, false; }
    var loaded := w.Send(GetPlayer);
    if !loaded.Found? { return RESERVED, 0, false; }
    return loaded.rec, loaded.version, true;
  }
}
