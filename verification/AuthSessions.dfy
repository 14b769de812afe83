/** One account: its record by name, its record by player, and any number of
    registrations and logins racing on both through compare-and-swap. A driver may stop
    anywhere; a call may be refused, or applied with its reply lost. */
module AuthSessions {
  import opened Common

  const MAX_CAS_ATTEMPTS: nat := 8
  const MAX_UINT64: nat := 0xFFFF_FFFF_FFFF_FFFF

  /** What both records carry: Reserved or Active, and the session generation. */
  datatype Rec = Rec(active: bool, generation: nat)

  const RESERVED := Rec(false, 0)

  datatype Call =
    | NoCall | GetName | AllocateId | InsertName | GetPlayer | InsertPlayer | InsertSession(generation: nat)
    | UpdatePlayer(rec: Rec, version: nat) | UpdateName(rec: Rec, version: nat)

  datatype Reply = Failed | NotFound | AlreadyExists | Done(version: nat) | Found(rec: Rec, version: nat)

  datatype Outcome =
    | Registered | LoggedIn(generation: nat) | Unavailable | InvalidCredentials | GenerationExhausted | Conflicted | StoreFailed

  /** Where one register or login call stands, with its private copies. */
  datatype Driver =
    | RegLoad | RegAllocate | RegInsertName
    | RegInsertPlayer(name: Row<Rec>) | RegLoadPlayer(name: Row<Rec>)
    | RegSession(name: Row<Rec>, player: Row<Rec>) | RegPlayer(name: Row<Rec>, player: Row<Rec>)
    | RegName(name: Row<Rec>)
    | LogLoad | LogName(attempt: nat)
    | LogPlayer(attempt: nat, name: Row<Rec>)
    | LogRaise(attempt: nat, name: Row<Rec>, player: Row<Rec>)
    | LogSettle(attempt: nat, name: Row<Rec>, next: nat, stamp: nat)
    | LogSession(next: nat)
    | Over(outcome: Outcome)

  function Higher(n: Rec, p: Rec): nat { if p.generation > n.generation then p.generation else n.generation }

  function Retry(attempt: nat): Driver {
    if attempt + 1 < MAX_CAS_ATTEMPTS then LogName(attempt + 1) else Over(Conflicted)
  }

  /** Seven more attempts follow the first one. */
  lemma EightAttempts(attempt: nat)
    ensures Retry(attempt) == Over(Conflicted) <==> attempt >= 7
    ensures attempt < 7 ==> Retry(attempt) == LogName(attempt + 1)
  {
  }

  function CallOf(d: Driver): Call {
    match d
    case RegLoad => GetName
    case RegAllocate => AllocateId
    case RegInsertName => InsertName
    case RegInsertPlayer(_) => InsertPlayer
    case RegLoadPlayer(_) => GetPlayer
    case RegSession(_, _) => InsertSession(1)
    case RegPlayer(_, p) => UpdatePlayer(Rec(true, 1), p.version)
    case RegName(n) => UpdateName(Rec(true, 1), n.version)
    case LogLoad => GetName
    case LogName(_) => GetName
    case LogPlayer(_, _) => GetPlayer
    case LogRaise(_, n, p) => UpdatePlayer(Rec(true, Higher(n.value, p.value) + 1), p.version)
    case LogSettle(_, n, next, _) => UpdateName(Rec(true, next), n.version)
    case LogSession(next) => InsertSession(next)
    case Over(_) => NoCall
  }

  function FeedRegister(d: Driver, r: Reply): Driver {
    match d
    case RegLoad =>
      if r.NotFound? then RegAllocate
      else if !r.Found? then Over(StoreFailed)
      else if r.rec.active then Over(Unavailable)
      else RegInsertPlayer(Row(r.rec, r.version))
    case RegAllocate => if r.Done? then RegInsertName else Over(StoreFailed)
    case RegInsertName =>
      if r.Done? then RegInsertPlayer(Row(RESERVED, r.version))
      else if r.AlreadyExists? then RegLoad
      else Over(StoreFailed)
    case RegInsertPlayer(n) =>
      if r.Done? then RegSession(n, Row(RESERVED, r.version))
      else if r.AlreadyExists? then RegLoadPlayer(n)
      else Over(StoreFailed)
    case RegLoadPlayer(n) => if r.Found? then RegSession(n, Row(r.rec, r.version)) else Over(StoreFailed)
    case RegSession(n, p) => if r.Done? then RegPlayer(n, p) else Over(StoreFailed)
    case RegPlayer(n, _) => if r.Done? then RegName(n) else Over(StoreFailed)
    case RegName(_) => if r.Done? then Over(Registered) else Over(StoreFailed)
    case _ => d
  }

  function FeedLogin(d: Driver, r: Reply): Driver {
    match d
    case LogLoad => if r.Found? && r.rec.active then LogName(0) else Over(InvalidCredentials)
    case LogName(k) => if r.Found? && r.rec.active then LogPlayer(k, Row(r.rec, r.version)) else Over(InvalidCredentials)
    case LogPlayer(k, n) =>
      if !(r.Found? && r.rec.active) then Over(InvalidCredentials)
      else if Higher(n.value, r.rec) == MAX_UINT64 then Over(GenerationExhausted)
      else LogRaise(k, n, Row(r.rec, r.version))
    case LogRaise(k, n, p) =>
      if r.Done? then LogSettle(k, n, Higher(n.value, p.value) + 1, r.version) else Retry(k)
    case LogSettle(k, _, next, _) => if r.Done? then LogSession(next) else Retry(k)
    case LogSession(next) => if r.Done? then Over(LoggedIn(next)) else Over(StoreFailed)
    case _ => d
  }

  predicate Registering(d: Driver) {
    d.RegLoad? || d.RegAllocate? || d.RegInsertName? || d.RegInsertPlayer? || d.RegLoadPlayer? || d.RegSession? || d.RegPlayer? || d.RegName?
  }

  function Feed(d: Driver, r: Reply): Driver {
    if Registering(d) then FeedRegister(d, r) else FeedLogin(d, r)
  }

  /** A generation handed to a login, and the player record's version when that login
      raised it. */
  datatype Win = Win(driver: nat, generation: nat, stamp: nat)

  /** A session row; the token it belongs to goes to the call that inserted it. */
  datatype Session = Session(generation: nat, revoked: bool)

  datatype World = World(
    name: Option<Row<Rec>>, player: Option<Row<Rec>>, sessions: map<nat, Session>,
    drivers: map<nat, Driver>, wins: seq<Win>)

  const FRESH := World(None, None, map[], map[], [])

  function Updated(row: Option<Row<Rec>>, rec: Rec, v: nat): (Option<Row<Rec>>, Reply) {
    if row.Some? && row.value.version == v then (Some(Row(rec, v + 1)), Done(v + 1)) else (row, Failed)
  }

  function Read(row: Option<Row<Rec>>): Reply {
    if row.None? then NotFound else Found(row.value.value, row.value.version)
  }

  /** One store call: each is atomic. Allocating a player ID is one call here; it touches
      neither record, and an ID allocated in vain is lost. */
  function Perform(w: World, c: Call): (World, Reply) {
    match c
    case NoCall => (w, Failed)
    case GetName => (w, Read(w.name))
    case GetPlayer => (w, Read(w.player))
    case AllocateId => (w, Done(0))
    case InsertName => if w.name.None? then (w.(name := Some(Row(RESERVED, 1))), Done(1)) else (w, AlreadyExists)
    case InsertPlayer => if w.player.None? then (w.(player := Some(Row(RESERVED, 1))), Done(1)) else (w, AlreadyExists)
    case InsertSession(_) => (w, Done(1))
    case UpdatePlayer(rec, v) => var u := Updated(w.player, rec, v); (w.(player := u.0), u.1)
    case UpdateName(rec, v) => var u := Updated(w.name, rec, v); (w.(name := u.0), u.1)
  }

  /** Validate is a lookup of a session by its token, by the session of the call `id`. */
  datatype Event =
    | StartRegister(id: nat) | StartLogin(id: nat) | Move(id: nat, fault: Fault)
    | Logout(id: nat) | Validate(id: nat, fault: Fault)

  function SetDriver(w: World, id: nat, d: Driver): World { w.(drivers := w.drivers[id := d]) }

  /** The wins after the driver learns the reply. */
  function Wins(w: World, id: nat, d: Driver, r: Reply): seq<Win> {
    if d.LogSettle? && r.Done? then w.wins + [Win(id, d.next, d.stamp)] else w.wins
  }

  /** The session rows after a call that took effect. */
  function Sessions(w: World, id: nat, c: Call): map<nat, Session> {
    if c.InsertSession? && id !in w.sessions then w.sessions[id := Session(c.generation, false)] else w.sessions
  }

  /** The session row of `id` lets its token in, but for expiry. */
  predicate SessionActive(w: World, id: nat) {
    && id in w.sessions && !w.sessions[id].revoked
    && PlayerActive(w) && w.player.value.value.generation == w.sessions[id].generation
  }

  function Revoke(w: World, id: nat): World {
    if id in w.sessions then w.(sessions := w.sessions[id := w.sessions[id].(revoked := true)]) else w
  }

  function Step(w: World, e: Event): World {
    match e
    case StartRegister(id) => if id in w.drivers then w else SetDriver(w, id, RegLoad)
    case StartLogin(id) => if id in w.drivers then w else SetDriver(w, id, LogLoad)
    case Move(id, fault) =>
      if id !in w.drivers then w
      else
        var d := w.drivers[id];
        if fault.Refuse? then SetDriver(w, id, Feed(d, Failed))
        else
          var (t, r) := Perform(w, CallOf(d));
          var seen := if fault.Fine? then r else Failed;
          SetDriver(t, id, Feed(d, seen)).(wins := Wins(w, id, d, seen), sessions := Sessions(w, id, CallOf(d)))
    case Logout(id) => Revoke(w, id)
    case Validate(id, fault) =>
      // A session that is not active is revoked, and so is one whose account could not be
      // loaded; Lose stands for a revocation that fails.
      if fault.Lose? || (fault.Fine? && SessionActive(w, id)) then w else Revoke(w, id)
  }

  function RunAll(w: World, es: seq<Event>): World
    decreases |es|
  {
    if es == [] then w else RunAll(Step(w, es[0]), es[1..])
  }

  // ------------------------------------------------------------- the invariant

  predicate RecOK(r: Rec) { (r.active <==> r.generation >= 1) && r.generation <= MAX_UINT64 }

  /** A private copy is current when its version is, and never newer. */
  predicate Copy(row: Row<Rec>, now: Option<Row<Rec>>) {
    now.Some? && row.version <= now.value.version && RecOK(row.value)
    && (row.version == now.value.version ==> row == now.value)
  }

  predicate PlayerActive(w: World) { w.player.Some? && w.player.value.value.active }

  predicate RowsOK(w: World) {
    && (w.name.Some? ==> RecOK(w.name.value.value)) && (w.player.Some? ==> RecOK(w.player.value.value))
    && (w.name.Some? && w.name.value.value.active ==> PlayerActive(w))
  }

  predicate Above(wins: seq<Win>, stamp: nat) {
    forall i :: 0 <= i < |wins| ==> wins[i].stamp < stamp
  }

  predicate HasWon(w: World, id: nat, generation: nat) {
    exists i :: 0 <= i < |w.wins| && w.wins[i].driver == id && w.wins[i].generation == generation
  }

  predicate DriverOK(w: World, id: nat, d: Driver) {
    match d
    case RegInsertPlayer(n) => Copy(n, w.name) && n.value == RESERVED
    case RegLoadPlayer(n) => Copy(n, w.name) && n.value == RESERVED
    case RegSession(n, p) => Copy(n, w.name) && n.value == RESERVED && Copy(p, w.player)
    case RegPlayer(n, p) => Copy(n, w.name) && n.value == RESERVED && Copy(p, w.player)
    case RegName(n) => Copy(n, w.name) && n.value == RESERVED && PlayerActive(w)
    case LogPlayer(_, n) => Copy(n, w.name) && n.value.active
    case LogRaise(_, n, p) =>
      Copy(n, w.name) && n.value.active && Copy(p, w.player) && p.value.active && Higher(n.value, p.value) < MAX_UINT64
    case LogSettle(_, n, next, stamp) =>
      && Copy(n, w.name) && n.value.active && n.value.generation < next <= MAX_UINT64
      && PlayerActive(w) && stamp <= w.player.value.version
      && (n.version == w.name.value.version ==> Above(w.wins, stamp))
    case LogSession(next) => HasWon(w, id, next)
    case Over(o) => o.LoggedIn? ==> HasWon(w, id, o.generation)
    case _ => true
  }

  predicate DriversOK(w: World) {
    forall i :: i in w.drivers ==> DriverOK(w, i, w.drivers[i])
  }

  /** The wins in the order the name record took them. */
  predicate WinsOK(w: World) {
    && (forall i :: 0 <= i < |w.wins| ==>
          && w.name.Some? && w.wins[i].generation <= w.name.value.value.generation
          && w.player.Some? && w.wins[i].stamp <= w.player.value.version)
    && (forall i, j :: 0 <= i < j < |w.wins| ==>
          w.wins[i].generation < w.wins[j].generation && w.wins[i].stamp < w.wins[j].stamp)
  }

  predicate Inv(w: World) { RowsOK(w) && DriversOK(w) && WinsOK(w) }

  /** A row only moves on: no version is used twice. */
  predicate RowLater(a: Option<Row<Rec>>, b: Option<Row<Rec>>) {
    a.Some? ==> b.Some? && a.value.version <= b.value.version && (a.value.version == b.value.version ==> a == b)
  }

  predicate Later(w: World, t: World) {
    && RowLater(w.name, t.name) && RowLater(w.player, t.player)
    && (PlayerActive(w) ==> PlayerActive(t))
    && w.wins <= t.wins
    && (t.wins == w.wins || (w.name.Some? && t.name.Some? && w.name.value.version < t.name.value.version))
  }

  lemma WonLater(w: World, t: World, id: nat, generation: nat)
    requires HasWon(w, id, generation) && w.wins <= t.wins
    ensures HasWon(t, id, generation)
  {
    var i :| 0 <= i < |w.wins| && w.wins[i].driver == id && w.wins[i].generation == generation;
    assert t.wins[i] == w.wins[i];
  }

  lemma DriverLater(w: World, t: World, id: nat, d: Driver)
    requires DriverOK(w, id, d) && Later(w, t)
    ensures DriverOK(t, id, d)
  {
    hide HasWon, RecOK;
    match d
    case LogSession(next) => WonLater(w, t, id, next);
    case Over(o) => if o.LoggedIn? { WonLater(w, t, id, o.generation); }
    case _ =>
  }

  // ------------------------------------------------------------- every step keeps it

  /** The world after a call, before the driver moves. */
  predicate Good(w: World, t: World) {
    RowsOK(t) && RowLater(w.name, t.name) && RowLater(w.player, t.player) && (PlayerActive(w) ==> PlayerActive(t))
    && t.wins == w.wins && t.drivers == w.drivers
    && (w.name.Some? ==> w.name.value.value.generation <= t.name.value.value.generation)
  }

  lemma CallIsGood(w: World, id: nat, d: Driver)
    requires RowsOK(w) && DriverOK(w, id, d)
    ensures Good(w, Perform(w, CallOf(d)).0)
  {
    hide HasWon, Above;
  }

  lemma RegisterFeedOK(w: World, id: nat, d: Driver)
    requires RowsOK(w) && DriverOK(w, id, d) && Registering(d)
    ensures var (t, r) := Perform(w, CallOf(d)); DriverOK(t, id, FeedRegister(d, r)) && DriverOK(t, id, FeedRegister(d, Failed))
  {
    hide HasWon, Above;
  }

  lemma LoginFeedOK(w: World, id: nat, d: Driver)
    requires RowsOK(w) && DriverOK(w, id, d) && WinsOK(w) && !Registering(d) && !d.LogSettle?
    ensures var (t, r) := Perform(w, CallOf(d)); DriverOK(t, id, FeedLogin(d, r)) && DriverOK(t, id, FeedLogin(d, Failed))
  {
    hide HasWon;
  }

  /** A login that settles its generation wins above every earlier one. */
  lemma SettleWins(w: World, id: nat, d: Driver)
    requires RowsOK(w) && DriverOK(w, id, d) && WinsOK(w) && d.LogSettle?
    requires Perform(w, CallOf(d)).1.Done?
    ensures var t := Perform(w, CallOf(d)).0.(wins := w.wins + [Win(id, d.next, d.stamp)]);
      WinsOK(t) && Later(w, t) && RowsOK(t) && HasWon(t, id, d.next)
  {
    var t := Perform(w, CallOf(d)).0.(wins := w.wins + [Win(id, d.next, d.stamp)]);
    assert t.wins[|w.wins|] == Win(id, d.next, d.stamp);
    assert Above(w.wins, d.stamp);
  }

  lemma GoodKeepsWins(w: World, t: World)
    requires Good(w, t) && WinsOK(w)
    ensures WinsOK(t) && Later(w, t)
  {
  }

  lemma DriversKept(w: World, t: World, id: nat, d: Driver)
    requires DriversOK(w) && Later(w, t) && t.drivers == w.drivers && DriverOK(t, id, d)
    ensures DriversOK(SetDriver(t, id, d)) && Later(w, SetDriver(t, id, d))
  {
    hide Later, DriverOK;
    var u := SetDriver(t, id, d);
    SameRows(w, t, u);
    forall i | i in u.drivers ensures DriverOK(u, i, u.drivers[i]) {
      if i != id { DriverLater(w, u, i, w.drivers[i]); } else { SameRowsDriver(t, u, id, d); }
    }
  }

  lemma SameRows(w: World, t: World, u: World)
    requires Later(w, t) && u == t.(drivers := u.drivers)
    ensures Later(w, u)
  {
  }

  lemma SameRowsDriver(t: World, u: World, id: nat, d: Driver)
    requires DriverOK(t, id, d) && u == t.(drivers := u.drivers)
    ensures DriverOK(u, id, d)
  {
    hide HasWon;
    if d.LogSession? { WonLater(t, u, id, d.next); }
    if d.Over? && d.outcome.LoggedIn? { WonLater(t, u, id, d.outcome.generation); }
  }

  lemma FailedFeedOK(w: World, id: nat, d: Driver)
    requires DriverOK(w, id, d)
    ensures DriverOK(w, id, Feed(d, Failed))
  {
    hide HasWon, Copy, Above;
  }

  lemma SameButSessions(w: World, t: World, u: World)
    requires Inv(t) && Later(w, t) && u == t.(sessions := u.sessions)
    ensures Inv(u) && Later(w, u)
  {
    hide RecOK, Above;
    assert u.name == t.name && u.player == t.player && u.wins == t.wins && u.drivers == t.drivers;
    WinsKept(t, u);
    forall i | i in u.drivers ensures DriverOK(u, i, u.drivers[i]) {
      SameWins(t, u);
      assert DriverOK(t, i, u.drivers[i]);
    }
  }

  lemma SameWins(t: World, u: World)
    requires u.wins == t.wins
    ensures forall id, g :: HasWon(t, id, g) <==> HasWon(u, id, g)
  {}

  lemma MoveKeeps(w: World, id: nat, fault: Fault)
    requires Inv(w) && id in w.drivers
    ensures Inv(Step(w, Move(id, fault))) && Later(w, Step(w, Move(id, fault)))
  {
    hide RowsOK, DriverOK, WinsOK, Later, Good, Perform, CallOf, FeedRegister, FeedLogin, Registering, HasWon;
    var d := w.drivers[id];
    SelfLater(w);
    if fault.Refuse? {
      FailedFeedOK(w, id, d);
      DriversKept(w, w, id, Feed(d, Failed));
      RowsKept(w, SetDriver(w, id, Feed(d, Failed)));
    } else {
      var (t, r) := Perform(w, CallOf(d));
      CallIsGood(w, id, d);
      GoodKeepsWins(w, t);
      GoodRows(w, t);
      var seen := if fault.Fine? then r else Failed;
      if d.LogSettle? && seen.Done? {
        SettleWins(w, id, d);
        var u := t.(wins := w.wins + [Win(id, d.next, d.stamp)]);
        SettledOK(u, id, d, seen);
        DriversKept(w, u, id, Feed(d, seen));
        RowsKept(u, SetDriver(u, id, Feed(d, seen)));
        SameButSessions(w, SetDriver(u, id, Feed(d, seen)), Step(w, Move(id, fault)));
      } else {
        if seen == Failed {
          DriverLater(w, t, id, d);
          FailedFeedOK(t, id, d);
        } else if Registering(d) { RegisterFeedOK(w, id, d); }
        else if !d.LogSettle? { LoginFeedOK(w, id, d); }
        else { DriverLater(w, t, id, d); SettleLost(t, id, d, seen); }
        DriversKept(w, t, id, Feed(d, seen));
        RowsKept(t, SetDriver(t, id, Feed(d, seen)));
        SameButSessions(w, SetDriver(t, id, Feed(d, seen)), Step(w, Move(id, fault)));
      }
    }
  }

  lemma SettleLost(t: World, id: nat, d: Driver, seen: Reply)
    requires d.LogSettle? && !seen.Done?
    ensures DriverOK(t, id, Feed(d, seen))
  {
  }

  lemma SettledOK(u: World, id: nat, d: Driver, seen: Reply)
    requires d.LogSettle? && seen.Done? && HasWon(u, id, d.next)
    ensures DriverOK(u, id, Feed(d, seen))
  {
  }

  lemma GoodRows(w: World, t: World)
    requires Good(w, t)
    ensures RowsOK(t) && t.wins == w.wins && t.drivers == w.drivers
  {
  }

  lemma SelfLater(w: World)
    ensures Later(w, w)
  {
  }

  lemma RowsKept(t: World, u: World)
    requires RowsOK(t) && WinsOK(t) && u == t.(drivers := u.drivers)
    ensures RowsOK(u) && WinsOK(u)
  {
    assert u.name == t.name && u.player == t.player && u.wins == t.wins;
    WinsKept(t, u);
  }

  lemma WinsKept(t: World, u: World)
    requires WinsOK(t) && u.name == t.name && u.player == t.player && u.wins == t.wins
    ensures WinsOK(u)
  {
    forall i | 0 <= i < |u.wins|
      ensures u.name.Some? && u.wins[i].generation <= u.name.value.value.generation
      ensures u.player.Some? && u.wins[i].stamp <= u.player.value.version
    {
      assert t.wins[i] == u.wins[i];
    }
    forall i, j | 0 <= i < j < |u.wins|
      ensures u.wins[i].generation < u.wins[j].generation && u.wins[i].stamp < u.wins[j].stamp
    {
      assert t.wins[i] == u.wins[i] && t.wins[j] == u.wins[j];
    }
  }

  lemma StepKeeps(w: World, e: Event)
    requires Inv(w)
    ensures Inv(Step(w, e)) && Later(w, Step(w, e))
  {
    hide RowsOK, DriverOK, WinsOK, Later;
    SelfLater(w);
    match e
    case Move(id, fault) => if id in w.drivers { MoveKeeps(w, id, fault); }
    case StartRegister(id) => if id !in w.drivers { StartKeeps(w, id, RegLoad); }
    case StartLogin(id) => if id !in w.drivers { StartKeeps(w, id, LogLoad); }
    case Logout(id) => SameButSessions(w, w, Step(w, e));
    case Validate(id, _) => SameButSessions(w, w, Step(w, e));
  }

  lemma StartKeeps(w: World, id: nat, d: Driver)
    requires Inv(w) && (d.RegLoad? || d.LogLoad?)
    ensures Inv(SetDriver(w, id, d)) && Later(w, SetDriver(w, id, d))
  {
    hide RowsOK, DriverOK, WinsOK, Later;
    SelfLater(w);
    StartOK(w, id);
    DriversKept(w, w, id, d);
    RowsKept(w, SetDriver(w, id, d));
  }

  lemma StartOK(w: World, id: nat)
    ensures DriverOK(w, id, RegLoad) && DriverOK(w, id, LogLoad)
  {
  }
}
