/** The session a register or login hands out, and what either does when nobody disturbs
    it: from every reachable state the answer and the tables are determined. */
module AuthAlone {
  import opened Common
  import opened AuthSessions
  import opened AuthTheorems

  // ------------------------------------------------------------- the session row

  predicate HasSession(w: World, id: nat, g: nat) { id in w.sessions && w.sessions[id].generation == g }

  /** The call has yet to insert its session. */
  predicate Before(d: Driver) {
    (Registering(d) && !d.RegPlayer? && !d.RegName?)
    || d.LogLoad? || d.LogName? || d.LogPlayer? || d.LogRaise? || d.LogSettle? || d.LogSession?
  }

  predicate TokenOK(w: World, id: nat, d: Driver) {
    && (Before(d) ==> id !in w.sessions)
    && (d.RegPlayer? || d.RegName? || d == Over(Registered) ==> HasSession(w, id, 1))
    && (d.Over? && d.outcome.LoggedIn? ==> HasSession(w, id, d.outcome.generation))
  }

  predicate TokensOK(w: World) {
    && (forall i :: i in w.drivers ==> TokenOK(w, i, w.drivers[i]))
    && (forall i :: i in w.sessions ==> i in w.drivers)
  }

  lemma StepTokens(w: World, e: Event)
    requires TokensOK(w)
    ensures TokensOK(Step(w, e))
  {
    hide SessionActive;
    match e
    case Move(id, fault) => if id in w.drivers { MoveTokens(w, id, fault); }
    case _ =>
  }

  lemma MoveTokens(w: World, id: nat, fault: Fault)
    requires TokensOK(w) && id in w.drivers
    ensures TokensOK(Step(w, Move(id, fault)))
  {
    var d := w.drivers[id];
    assert TokenOK(w, id, d);
    var t := Step(w, Move(id, fault));
    OneCall(w, id, fault);
    hide Step, Sessions;
    forall i | i in t.drivers ensures TokenOK(t, i, t.drivers[i]) {
      if i != id { assert TokenOK(w, i, w.drivers[i]); }
    }
  }

  /** What one call does to the rows and to the driver that makes it. */
  lemma OneCall(w: World, id: nat, fault: Fault)
    requires id in w.drivers && TokenOK(w, id, w.drivers[id])
    ensures var t := Step(w, Move(id, fault));
      && TokenOK(t, id, t.drivers[id]) && t.drivers.Keys == w.drivers.Keys
      && (forall i :: i != id ==> (i in t.sessions <==> i in w.sessions) && (i in w.sessions ==> t.sessions[i] == w.sessions[i]))
      && (forall i :: i in w.drivers && i != id ==> t.drivers[i] == w.drivers[i])
  {
    hide Wins;
  }

  lemma {:induction false} RunTokens(w: World, es: seq<Event>)
    requires TokensOK(w)
    ensures TokensOK(RunAll(w, es))
    decreases |es|
  {
    hide Step, TokensOK;
    if es != [] {
      StepTokens(w, es[0]);
      RunTokens(Step(w, es[0]), es[1..]);
    }
  }

  /** The call's session row carries this generation, and lets its token in exactly while it
      is not revoked and the player record is active at that generation. */
  predicate LetsIn(w: World, id: nat, g: nat) {
    && id in w.sessions && w.sessions[id].generation == g
    && (SessionActive(w, id) <==> !w.sessions[id].revoked && Active(w, g))
  }

  /** Over every run a login that is told generation g has inserted a session row of
      generation g, a register one of generation 1; and the row lets its token in exactly
      while it is not revoked and the player record is active at that generation. */
  lemma TokensMatchTheirRows(es: seq<Event>, id: nat)
    requires var w := RunAll(FRESH, es); id in w.drivers && w.drivers[id].Over?
    ensures var w := RunAll(FRESH, es);
      var o := w.drivers[id].outcome;
      && (o.LoggedIn? ==> LetsIn(w, id, o.generation))
      && (o.Registered? ==> LetsIn(w, id, 1))
  {
    RunTokens(FRESH, es);
    hide RunAll;
    assert TokenOK(RunAll(FRESH, es), id, RunAll(FRESH, es).drivers[id]);
  }

  /** Nobody logs the session out, no lookup of it fails, and the generation stands. */
  ghost predicate Spared(w: World, es: seq<Event>, id: nat)
    decreases |es|
  {
    es == [] || (
      && es[0] != Logout(id) && es[0] != Validate(id, Refuse)
      && Generation(Step(w, es[0]).player) == Generation(w.player)
      && Spared(Step(w, es[0]), es[1..], id))
  }

  /** An active session stays active as long as that is so, however often it is used. */
  lemma {:induction false} ActiveStaysActive(w: World, es: seq<Event>, id: nat)
    requires Inv(w) && TokensOK(w) && SessionActive(w, id) && Spared(w, es, id)
    ensures SessionActive(RunAll(w, es), id)
    decreases |es|
  {
    if es != [] {
      StepKeeps(w, es[0]);
      StepTokens(w, es[0]);
      RowStays(w, es[0], id);
      hide Step, Inv, TokensOK;
      ActiveStaysActive(Step(w, es[0]), es[1..], id);
    }
  }

  lemma RowStays(w: World, e: Event, id: nat)
    requires TokensOK(w) && SessionActive(w, id) && e != Logout(id) && e != Validate(id, Refuse)
    ensures id in Step(w, e).sessions && Step(w, e).sessions[id] == w.sessions[id]
  {
    if e.Move? && e.id in w.drivers { OneCall(w, e.id, e.fault); }
    hide FeedRegister, FeedLogin;
  }

  // ------------------------------------------------------------- undisturbed

  /** `n` answered calls of one driver. */
  function Alone(w: World, id: nat, n: nat): World {
    if n == 0 then w else Step(Alone(w, id, n - 1), Move(id, Fine))
  }

  lemma {:induction false} AloneOn(w: World, id: nat, m: nat, n: nat)
    ensures Alone(Alone(w, id, m), id, n) == Alone(w, id, m + n)
    decreases n
  {
    hide Step;
    if n > 0 { AloneOn(w, id, m, n - 1); }
  }

  lemma {:induction false} AloneRests(w: World, id: nat, n: nat)
    requires id in w.drivers && w.drivers[id].Over?
    ensures Alone(w, id, n) == w
  {
    if n > 0 {
      AloneRests(w, id, n - 1);
      OverStays(w, id);
    }
  }

  lemma OverStays(w: World, id: nat)
    requires id in w.drivers && w.drivers[id].Over?
    ensures Step(w, Move(id, Fine)) == w
  {
    assert w.drivers[id := w.drivers[id]] == w.drivers;
  }

  predicate Came(w: World, t: World, id: nat, k: nat) { t == Alone(w, id, k) }

  predicate At(t: World, id: nat, d: Driver) { id in t.drivers && t.drivers[id] == d }

  /** One answered call of the driver at this point. */
  lemma GoesTo(w: World, t: World, id: nat, k: nat, d: Driver, s: World, r: Reply) returns (u: World)
    requires Came(w, t, id, k) && At(t, id, d) && Perform(t, CallOf(d)) == (s, r) && s.drivers == t.drivers
    ensures Came(w, u, id, k + 1) && At(u, id, Feed(d, r))
    ensures u == s.(drivers := t.drivers[id := Feed(d, r)], wins := Wins(t, id, d, r), sessions := Sessions(t, id, CallOf(d)))
  {
    hide Perform, CallOf, Feed, Sessions, Wins;
    u := Step(t, Move(id, Fine));
  }

  /** The answer of an undisturbed login, from the records it finds. */
  function LoginAnswer(w: World): Outcome {
    if w.name.None? || !w.name.value.value.active || w.player.None? then InvalidCredentials
    else
      var highest := Higher(w.name.value.value, w.player.value.value);
      if highest == 0xFFFF_FFFF_FFFF_FFFF then GenerationExhausted else LoggedIn(highest + 1)
  }

  /** A login that succeeds leaves both records at its generation, and its session lets
      its token in; any other changes nothing. */
  predicate LoginDone(w: World, t: World, id: nat, o: Outcome) {
    if o.LoggedIn? then
      && t.name.Some? && t.name.value.value == Rec(true, o.generation)
      && t.player.Some? && t.player.value.value == Rec(true, o.generation)
      && SessionActive(t, id) && t.sessions == w.sessions[id := Session(o.generation, false)]
    else t.name == w.name && t.player == w.player && t.sessions == w.sessions
  }

  lemma ReadsBoth(s: World, id: nat) returns (u: World)
    requires At(s, id, LogLoad) && s.name.Some? && s.name.value.value.active && PlayerActive(s)
    ensures Came(s, u, id, 3) && u == s.(drivers := u.drivers)
    ensures At(u, id, if Higher(s.name.value.value, s.player.value.value) == 0xFFFF_FFFF_FFFF_FFFF then Over(GenerationExhausted)
                      else LogRaise(0, s.name.value, s.player.value))
  {
    Begins(s, id);
    hide Came, Alone;
    u := GoesTo(s, s, id, 0, LogLoad, s, Read(s.name));
    u := GoesTo(s, u, id, 1, LogName(0), u, Read(s.name));
    u := GoesTo(s, u, id, 2, LogPlayer(0, s.name.value), u, Read(s.player));
  }

  lemma Begins(s: World, id: nat)
    ensures Came(s, s, id, 0)
  {}

  lemma Raises(w: World, t: World, id: nat) returns (u: World)
    requires t.name.Some? && t.player.Some? && Came(w, t, id, 3) && At(t, id, LogRaise(0, t.name.value, t.player.value))
    requires id !in t.sessions
    ensures var g := Higher(t.name.value.value, t.player.value.value) + 1;
      && Came(w, u, id, 6) && At(u, id, Over(LoggedIn(g)))
      && u.name == Some(Row(Rec(true, g), t.name.value.version + 1))
      && u.player == Some(Row(Rec(true, g), t.player.value.version + 1))
      && u.sessions == t.sessions[id := Session(g, false)]
  {
    hide Came, Alone;
    var (n, p) := (t.name.value, t.player.value);
    var g := Higher(n.value, p.value) + 1;
    u := GoesTo(w, t, id, 3, LogRaise(0, n, p), t.(player := Some(Row(Rec(true, g), p.version + 1))), Done(p.version + 1));
    u := GoesTo(w, u, id, 4, LogSettle(0, n, g, p.version + 1), u.(name := Some(Row(Rec(true, g), n.version + 1))), Done(n.version + 1));
    u := GoesTo(w, u, id, 5, LogSession(g), u, Done(1));
  }

  lemma RefusedAtOnce(s: World, id: nat) returns (u: World)
    requires At(s, id, LogLoad) && (s.name.None? || !s.name.value.value.active)
    ensures Came(s, u, id, 1) && At(u, id, Over(InvalidCredentials)) && u == s.(drivers := u.drivers)
  {
    Begins(s, id);
    hide Came, Alone;
    u := GoesTo(s, s, id, 0, LogLoad, s, Read(s.name));
  }

  /** What login does from every reachable state when nobody disturbs it, in at most six
      calls: an active account gets a generation above both records', which then carry
      it, and a session that is active at once. */
  lemma LoginAlone(es: seq<Event>, id: nat, m: nat)
    requires id !in RunAll(FRESH, es).drivers && m >= 6
    ensures var w := RunAll(FRESH, es);
      var t := Alone(Step(w, StartLogin(id)), id, m);
      At(t, id, Over(LoginAnswer(w))) && LoginDone(w, t, id, LoginAnswer(w))
  {
    hide RunAll, Inv, Alone, TokensOK, RowsOK, LoginDone, LoginAnswer, Step;
    FreshTokens();
    RunKeeps(FRESH, es);
    RunTokens(FRESH, es);
    var w := RunAll(FRESH, es);
    var u, l := LoginFrom(w, id);
    Started(w, id);
    AloneOn(SetDriver(w, id, LogLoad), id, l, m - l);
    AloneRests(u, id, m - l);
  }

  lemma FreshTokens()
    ensures TokensOK(FRESH) && Inv(FRESH)
  {}

  lemma Started(w: World, id: nat)
    requires id !in w.drivers
    ensures Step(w, StartLogin(id)) == SetDriver(w, id, LogLoad) && Step(w, StartRegister(id)) == SetDriver(w, id, RegLoad)
  {}

  lemma LoginFrom(w: World, id: nat) returns (u: World, l: nat)
    requires Inv(w) && TokensOK(w) && id !in w.drivers
    ensures l <= 6 && Came(SetDriver(w, id, LogLoad), u, id, l)
    ensures At(u, id, Over(LoginAnswer(w))) && LoginDone(w, u, id, LoginAnswer(w))
  {
    hide Came, Alone, DriversOK, WinsOK;
    var s := SetDriver(w, id, LogLoad);
    if w.name.None? || !w.name.value.value.active {
      u := RefusedAtOnce(s, id);
      l := 1;
    } else {
      u := ReadsBoth(s, id);
      l := 3;
      if Higher(w.name.value.value, w.player.value.value) != MAX_UINT64 {
        u := Raises(s, u, id);
        l := 6;
      }
    }
  }

  // ------------------------------------------------------------- register

  /** The name and the player record are there; the session, the player record and the
      name record follow. */
  lemma RegistersFrom(w: World, t: World, id: nat, k: nat) returns (u: World)
    requires t.name.Some? && t.player.Some? && Came(w, t, id, k) && At(t, id, RegSession(t.name.value, t.player.value))
    requires id !in t.sessions
    ensures Came(w, u, id, k + 3) && At(u, id, Over(Registered))
    ensures u.name == Some(Row(Rec(true, 1), t.name.value.version + 1))
    ensures u.player == Some(Row(Rec(true, 1), t.player.value.version + 1))
    ensures u.sessions == t.sessions[id := Session(1, false)]
  {
    hide Came, Alone;
    var (n, p) := (t.name.value, t.player.value);
    u := GoesTo(w, t, id, k, RegSession(n, p), t, Done(1));
    u := GoesTo(w, u, id, k + 1, RegPlayer(n, p), u.(player := Some(Row(Rec(true, 1), p.version + 1))), Done(p.version + 1));
    u := GoesTo(w, u, id, k + 2, RegName(n), u.(name := Some(Row(Rec(true, 1), n.version + 1))), Done(n.version + 1));
  }

  /** The player record is inserted or loaded. */
  lemma EnsuresPlayer(w: World, t: World, id: nat, k: nat) returns (u: World, l: nat)
    requires t.name.Some? && Came(w, t, id, k) && At(t, id, RegInsertPlayer(t.name.value))
    ensures k <= l <= k + 2 && Came(w, u, id, l) && u.player.Some? && At(u, id, RegSession(t.name.value, u.player.value))
    ensures u == t.(player := u.player, drivers := u.drivers)
    ensures u.player == if t.player.None? then Some(Row(RESERVED, 1)) else t.player
  {
    hide Came, Alone;
    var n := t.name.value;
    if t.player.None? {
      u := GoesTo(w, t, id, k, RegInsertPlayer(n), t.(player := Some(Row(RESERVED, 1))), Done(1));
      l := k + 1;
    } else {
      u := GoesTo(w, t, id, k, RegInsertPlayer(n), t, AlreadyExists);
      u := GoesTo(w, u, id, k + 1, RegLoadPlayer(n), u, Read(t.player));
      l := k + 2;
    }
  }

  /** The name is read, and reserved if it is free. */
  lemma ReservesName(s: World, id: nat) returns (u: World, l: nat)
    requires At(s, id, RegLoad) && (s.name.None? || s.name.value.value == RESERVED)
    ensures l <= 3 && Came(s, u, id, l) && u.name.Some? && At(u, id, RegInsertPlayer(u.name.value))
    ensures u == s.(name := u.name, drivers := u.drivers) && u.name == if s.name.None? then Some(Row(RESERVED, 1)) else s.name
  {
    Begins(s, id);
    hide Came, Alone;
    u := GoesTo(s, s, id, 0, RegLoad, s, Read(s.name));
    l := 1;
    if s.name.None? {
      u := GoesTo(s, u, id, 1, RegAllocate, u, Done(0));
      u := GoesTo(s, u, id, 2, RegInsertName, u.(name := Some(Row(RESERVED, 1))), Done(1));
      l := 3;
    }
  }

  /** What register does from every reachable state when nobody disturbs it, in at most
      eight calls: a name that is active is unavailable and nothing changes; any other is
      registered, with both records active at generation 1 and a session that is active at
      once. */
  lemma RegisterAlone(es: seq<Event>, id: nat, m: nat)
    requires id !in RunAll(FRESH, es).drivers && m >= 8
    ensures var w := RunAll(FRESH, es);
      var t := Alone(Step(w, StartRegister(id)), id, m);
      if w.name.Some? && w.name.value.value.active then
        At(t, id, Over(Unavailable)) && t == w.(drivers := t.drivers)
      else
        && At(t, id, Over(Registered)) && SessionActive(t, id)
        && t.name.Some? && t.name.value.value == Rec(true, 1) && t.player.Some? && t.player.value.value == Rec(true, 1)
        && t.sessions == w.sessions[id := Session(1, false)]
  {
    hide RunAll, Inv, Alone, TokensOK, RowsOK, Step;
    FreshTokens();
    RunKeeps(FRESH, es);
    RunTokens(FRESH, es);
    var w := RunAll(FRESH, es);
    Started(w, id);
    var u, l := RegisterFrom(w, id);
    AloneOn(SetDriver(w, id, RegLoad), id, l, m - l);
    AloneRests(u, id, m - l);
  }

  lemma RegisterFrom(w: World, id: nat) returns (u: World, l: nat)
    requires Inv(w) && TokensOK(w) && id !in w.drivers
    ensures l <= 8 && Came(SetDriver(w, id, RegLoad), u, id, l)
    ensures if w.name.Some? && w.name.value.value.active then
        At(u, id, Over(Unavailable)) && u == w.(drivers := u.drivers)
      else
        && At(u, id, Over(Registered)) && SessionActive(u, id)
        && u.name.Some? && u.name.value.value == Rec(true, 1) && u.player.Some? && u.player.value.value == Rec(true, 1)
        && u.sessions == w.sessions[id := Session(1, false)]
  {
    hide Came, Alone, DriversOK, WinsOK;
    var s := SetDriver(w, id, RegLoad);
    if w.name.Some? && w.name.value.value.active {
      Begins(s, id);
      u := GoesTo(s, s, id, 0, RegLoad, s, Read(s.name));
      l := 1;
    } else {
      u, l := ReservesName(s, id);
      u, l := EnsuresPlayer(s, u, id, l);
      u := RegistersFrom(s, u, id, l);
      l := l + 3;
    }
  }
}
