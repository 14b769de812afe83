/** What every interleaving of registrations and logins on one account keeps, and the
    one step that can undo a login. */
module AuthTheorems {
  import opened Common
  import opened AuthSessions

  lemma {:induction false} RunKeeps(w: World, es: seq<Event>)
    requires Inv(w)
    ensures Inv(RunAll(w, es))
    decreases |es|
  {
    hide Inv, Step;
    if es != [] {
      StepKeeps(w, es[0]);
      RunKeeps(Step(w, es[0]), es[1..]);
    }
  }

  predicate Settled(d: Driver, g: nat) { d == Over(LoggedIn(g)) || d == LogSession(g) }

  /** Over every interleaving the logins that obtain a generation obtain strictly
      increasing ones, both in the order the name record took them and in the order the
      player record did, and no two logins obtain the same. */
  lemma LoginsAreOrdered(es: seq<Event>)
    ensures var t := RunAll(FRESH, es);
      && (forall i, j :: 0 <= i < j < |t.wins| ==>
            t.wins[i].generation < t.wins[j].generation && t.wins[i].stamp < t.wins[j].stamp)
      && (forall i, g: nat :: i in t.drivers && Settled(t.drivers[i], g) ==> HasWon(t, i, g))
      && (forall i, j, g: nat :: i in t.drivers && j in t.drivers && Settled(t.drivers[i], g) && Settled(t.drivers[j], g) ==> i == j)
  {
    var t := RunAll(FRESH, es);
    RunKeeps(FRESH, es);
    hide RunAll, RowsOK;
    forall i, g: nat | i in t.drivers && Settled(t.drivers[i], g) ensures HasWon(t, i, g) {
      assert DriverOK(t, i, t.drivers[i]);
    }
    forall i, j, g: nat | i in t.drivers && j in t.drivers && Settled(t.drivers[i], g) && Settled(t.drivers[j], g)
      ensures i == j
    {
      OneWinner(t, i, j, g);
    }
  }

  lemma OneWinner(t: World, i: nat, j: nat, g: nat)
    requires WinsOK(t) && HasWon(t, i, g) && HasWon(t, j, g)
    ensures i == j
  {
    var a :| 0 <= a < |t.wins| && t.wins[a].driver == i && t.wins[a].generation == g;
    var b :| 0 <= b < |t.wins| && t.wins[b].driver == j && t.wins[b].generation == g;
  }

  // ------------------------------------------------------------- going back

  function Generation(row: Option<Row<Rec>>): nat { if row.Some? then row.value.value.generation else 0 }

  /** sessionActive, for an unexpired and unrevoked session of generation `g`. */
  predicate Active(w: World, g: nat) { PlayerActive(w) && w.player.value.value.generation == g }

  /** A racing register's player update lands on a record a login has already raised. */
  predicate Resets(w: World, e: Event) {
    && e.Move? && e.id in w.drivers && w.drivers[e.id].RegPlayer? && !e.fault.Refuse?
    && w.player.Some? && w.drivers[e.id].player.version == w.player.value.version
    && w.player.value.value.generation > 1
  }

  /** The player record's generation goes back in exactly those steps. */
  lemma PlayerGoesBackIff(w: World, e: Event)
    requires Inv(w)
    ensures Generation(Step(w, e).player) < Generation(w.player) <==> Resets(w, e)
  {
    hide WinsOK, HasWon, FeedRegister, FeedLogin;
    if e.Move? && e.id in w.drivers { assert DriverOK(w, e.id, w.drivers[e.id]); }
  }

  ghost predicate Quiet(w: World, es: seq<Event>)
    decreases |es|
  {
    es == [] || (!Resets(w, es[0]) && Quiet(Step(w, es[0]), es[1..]))
  }

  ghost predicate NeverBack(w: World, es: seq<Event>)
    decreases |es|
  {
    es == [] || (Generation(Step(w, es[0]).player) >= Generation(w.player) && NeverBack(Step(w, es[0]), es[1..]))
  }

  /** Over a whole run the player record's generation never goes back if and only if no
      register lands on a record a login has raised. */
  lemma {:induction false} NeverBackIffQuiet(w: World, es: seq<Event>)
    requires Inv(w)
    ensures NeverBack(w, es) <==> Quiet(w, es)
    decreases |es|
  {
    hide Inv, Step, Resets;
    if es != [] {
      PlayerGoesBackIff(w, es[0]);
      StepKeeps(w, es[0]);
      NeverBackIffQuiet(Step(w, es[0]), es[1..]);
    }
  }

  /** In such a run a superseded session stays dead: once the player record is past a
      generation that generation is never active again. */
  lemma {:induction false} SupersededStaysDead(w: World, es: seq<Event>, g: nat)
    requires Inv(w) && Quiet(w, es) && Generation(w.player) > g
    ensures Generation(RunAll(w, es).player) > g && !Active(RunAll(w, es), g)
    decreases |es|
  {
    hide Inv, Step, Resets;
    if es != [] {
      PlayerGoesBackIff(w, es[0]);
      StepKeeps(w, es[0]);
      SupersededStaysDead(Step(w, es[0]), es[1..], g);
    }
  }

  // ------------------------------------------------------------- who is ahead

  /** The name record is ahead of the player record. */
  predicate Ahead(w: World) { Generation(w.name) > Generation(w.player) }

  /** A login about to write its generation to the name record although a register has
      taken the player record back below it. */
  predicate Undone(w: World, e: Event) {
    && e.Move? && e.id in w.drivers && w.drivers[e.id].LogSettle? && !e.fault.Refuse?
    && w.name.Some? && w.drivers[e.id].name.version == w.name.value.version
    && Generation(w.player) < w.drivers[e.id].next
  }

  /** The name record gets ahead in exactly two ways: a register takes the player record
      back below it, or a login whose raise was so undone writes it. */
  lemma AheadArisesIff(w: World, e: Event)
    requires Inv(w) && !Ahead(w)
    ensures Ahead(Step(w, e)) <==> (Resets(w, e) && Generation(w.name) > 1) || Undone(w, e)
  {
    hide WinsOK, HasWon, FeedRegister, FeedLogin;
    if e.Move? && e.id in w.drivers { assert DriverOK(w, e.id, w.drivers[e.id]); }
  }

  /** What puts the name record ahead. */
  predicate Overtakes(w: World, e: Event) { (Resets(w, e) && Generation(w.name) > 1) || Undone(w, e) }

  /** A login's raise of the player record lands at or above the name record. */
  predicate CatchesUp(w: World, e: Event) {
    && e.Move? && e.id in w.drivers && w.drivers[e.id].LogRaise? && !e.fault.Refuse?
    && w.player.Some? && w.drivers[e.id].player.version == w.player.value.version
    && Higher(w.drivers[e.id].name.value, w.drivers[e.id].player.value) + 1 >= Generation(w.name)
  }

  lemma AheadStaysIff(w: World, e: Event)
    requires Inv(w) && Ahead(w)
    ensures Ahead(Step(w, e)) <==> !CatchesUp(w, e)
    ensures Overtakes(w, e) ==> Ahead(Step(w, e))
  {
    hide WinsOK, HasWon, FeedRegister, FeedLogin;
    if e.Move? && e.id in w.drivers { assert DriverOK(w, e.id, w.drivers[e.id]); }
  }

  /** Some step puts the name record ahead, and no login catches up after it. */
  ghost predicate LeftAhead(w: World, es: seq<Event>, ahead: bool)
    decreases |es|
  {
    if es == [] then ahead
    else LeftAhead(Step(w, es[0]), es[1..], Overtakes(w, es[0]) || (ahead && !CatchesUp(w, es[0])))
  }

  lemma {:induction false} AheadFromIff(w: World, es: seq<Event>)
    requires Inv(w)
    ensures Ahead(RunAll(w, es)) <==> LeftAhead(w, es, Ahead(w))
    decreases |es|
  {
    hide Inv, Step, Overtakes, CatchesUp, Ahead;
    if es != [] {
      StepKeeps(w, es[0]);
      if Ahead(w) { AheadStaysIff(w, es[0]); } else { AheadArises(w, es[0]); }
      AheadFromIff(Step(w, es[0]), es[1..]);
    }
  }

  lemma AheadArises(w: World, e: Event)
    requires Inv(w) && !Ahead(w)
    ensures Ahead(Step(w, e)) <==> Overtakes(w, e)
  {
    hide Inv, Step;
    AheadArisesIff(w, e);
  }

  /** A run ends with the name record ahead if and only if some step of it put it there,
      a register that took the player record back or a login whose raise was so undone,
      and no login has caught up since. */
  lemma AheadIff(es: seq<Event>)
    ensures Ahead(RunAll(FRESH, es)) <==> LeftAhead(FRESH, es, false)
  {
    AheadFromIff(FRESH, es);
  }

  ghost predicate NeverAhead(w: World, es: seq<Event>)
    decreases |es|
  {
    !Ahead(w) && (es == [] || NeverAhead(Step(w, es[0]), es[1..]))
  }

  ghost predicate NeverOvertakes(w: World, es: seq<Event>)
    decreases |es|
  {
    es == [] || (!Overtakes(w, es[0]) && NeverOvertakes(Step(w, es[0]), es[1..]))
  }

  /** Over a whole run the name record is never ahead if and only if no step puts it
      there. */
  lemma {:induction false} NeverAheadIff(w: World, es: seq<Event>)
    requires Inv(w) && !Ahead(w)
    ensures NeverAhead(w, es) <==> NeverOvertakes(w, es)
    decreases |es|
  {
    hide Inv, Step, Overtakes, Ahead;
    if es != [] {
      StepKeeps(w, es[0]);
      AheadArises(w, es[0]);
      if !Ahead(Step(w, es[0])) { NeverAheadIff(Step(w, es[0]), es[1..]); }
    }
  }

  /** No login's raise has been undone. */
  predicate Raised(w: World) {
    forall i :: i in w.drivers && w.drivers[i].LogSettle? ==> w.drivers[i].next <= Generation(w.player)
  }

  lemma RaisedKept(w: World, e: Event)
    requires Inv(w) && Raised(w) && !Resets(w, e)
    ensures Raised(Step(w, e))
  {
    PlayerGoesBackIff(w, e);
    hide WinsOK, DriversOK, HasWon, RowsOK, Resets;
    var t := Step(w, e);
    forall i | i in t.drivers && t.drivers[i].LogSettle? ensures t.drivers[i].next <= Generation(t.player) {
      if e.Move? && e.id == i && i in w.drivers { RaiseLands(w, i, e.fault); }
    }
  }

  lemma RaiseLands(w: World, i: nat, fault: Fault)
    requires i in w.drivers && Step(w, Move(i, fault)).drivers[i].LogSettle?
    ensures Step(w, Move(i, fault)).drivers[i].next <= Generation(Step(w, Move(i, fault)).player)
  {
    var d := w.drivers[i];
    if d.LogRaise? {
    } else if Registering(d) {
    } else if d.LogSettle? {
    }
  }

  lemma {:induction false} NotAheadFrom(w: World, es: seq<Event>)
    requires Inv(w) && Raised(w) && !Ahead(w) && Quiet(w, es)
    ensures !Ahead(RunAll(w, es))
    decreases |es|
  {
    hide Inv, Step, Resets, Raised;
    if es != [] {
      StepKeeps(w, es[0]);
      RaisedKept(w, es[0]);
      RaisedNotUndone(w, es[0]);
      AheadArisesIff(w, es[0]);
      NotAheadFrom(Step(w, es[0]), es[1..]);
    }
  }

  /** In a run without such a reset the name record is never ahead. */
  lemma NameNeverAhead(es: seq<Event>)
    requires Quiet(FRESH, es)
    ensures !Ahead(RunAll(FRESH, es))
  {
    NotAheadFrom(FRESH, es);
  }

  lemma RaisedNotUndone(w: World, e: Event)
    requires Raised(w)
    ensures !Undone(w, e)
  {
  }

  // ------------------------------------------------------------- the reset happens

  ghost predicate Reachable(w: World) { exists es :: w == RunAll(FRESH, es) }

  lemma {:induction false} RunOneMore(w: World, es: seq<Event>, e: Event)
    ensures RunAll(w, es + [e]) == Step(RunAll(w, es), e)
    decreases |es|
  {
    hide Step;
    if es == [] {
      assert RunAll(w, [e]) == RunAll(Step(w, e), []);
    } else {
      assert (es + [e])[1..] == es[1..] + [e];
      RunOneMore(Step(w, es[0]), es[1..], e);
    }
  }

  lemma Next(w: World, e: Event)
    requires Reachable(w)
    ensures Reachable(Step(w, e))
  {
    hide Step;
    var es :| w == RunAll(FRESH, es);
    RunOneMore(FRESH, es, e);
  }

  /** Two registers (0 and 1) and a login (2), and what each sees. */
  predicate Scene(w: World, name: Row<Rec>, player: Row<Rec>, d0: Driver, d1: Driver, d2: Driver) {
    && w.name == Some(name) && w.player == Some(player)
    && w.drivers.Keys == {0, 1, 2} && w.drivers[0] == d0 && w.drivers[1] == d1 && w.drivers[2] == d2
  }

  /** Both registers see the reserved name; one goes on to finish. */
  lemma FirstRegisters() returns (w: World)
    ensures Reachable(w)
    ensures Scene(w, Row(Rec(true, 1), 2), Row(Rec(true, 1), 2), Over(Registered), RegInsertPlayer(Row(RESERVED, 1)), LogLoad)
  {
    w := PlayerReserved();
    var m := Move(0, Fine);
    Next(w, m);
    w := Step(w, m);
    Next(w, m);
    w := Step(w, m);
    assert Scene(w, Row(RESERVED, 1), Row(Rec(true, 1), 2), RegName(Row(RESERVED, 1)), RegInsertPlayer(Row(RESERVED, 1)), LogLoad);
    Next(w, m);
    w := Step(w, m);
  }

  lemma PlayerReserved() returns (w: World)
    ensures Reachable(w)
    ensures Scene(w, Row(RESERVED, 1), Row(RESERVED, 1), RegSession(Row(RESERVED, 1), Row(RESERVED, 1)),
                  RegInsertPlayer(Row(RESERVED, 1)), LogLoad)
  {
    w := ReserveName();
    Next(w, Move(0, Fine));
    w := Step(w, Move(0, Fine));
  }

  lemma AllStart() returns (w: World)
    ensures Reachable(w) && w.name == None && w.player == None && w.drivers.Keys == {0, 1, 2}
    ensures w.drivers[0] == RegLoad && w.drivers[1] == RegLoad && w.drivers[2] == LogLoad
  {
    assert FRESH == RunAll(FRESH, []);
    Next(FRESH, StartRegister(0));
    w := Step(FRESH, StartRegister(0));
    Next(w, StartRegister(1));
    w := Step(w, StartRegister(1));
    Next(w, StartLogin(2));
    w := Step(w, StartLogin(2));
  }

  lemma ReserveName() returns (w: World)
    ensures Reachable(w) && w.name == Some(Row(RESERVED, 1)) && w.player == None && w.drivers.Keys == {0, 1, 2}
    ensures w.drivers[0] == RegInsertPlayer(Row(RESERVED, 1)) && w.drivers[1] == w.drivers[0] && w.drivers[2] == LogLoad
  {
    w := AllStart();
    Next(w, Move(0, Fine));
    w := Step(w, Move(0, Fine));
    assert w.drivers[0] == RegAllocate;
    Next(w, Move(0, Fine));
    w := Step(w, Move(0, Fine));
    assert w.drivers[0] == RegInsertName;
    Next(w, Move(0, Fine));
    w := Step(w, Move(0, Fine));
    Next(w, Move(1, Fine));
    w := Step(w, Move(1, Fine));
  }

  /** The login reads both records. */
  lemma ThenReads() returns (w: World)
    ensures Reachable(w)
    ensures Scene(w, Row(Rec(true, 1), 2), Row(Rec(true, 1), 2), Over(Registered), RegInsertPlayer(Row(RESERVED, 1)),
                  LogRaise(0, Row(Rec(true, 1), 2), Row(Rec(true, 1), 2)))
  {
    w := FirstRegisters();
    var m := Move(2, Fine);
    Next(w, m);
    w := Step(w, m);
    Next(w, m);
    w := Step(w, m);
    assert w.drivers[2] == LogPlayer(0, Row(Rec(true, 1), 2));
    Next(w, m);
    w := Step(w, m);
  }

  /** The login raises the generation to 2. */
  lemma ThenLogsIn() returns (w: World)
    ensures Reachable(w)
    ensures Scene(w, Row(Rec(true, 2), 3), Row(Rec(true, 2), 3), Over(Registered), RegInsertPlayer(Row(RESERVED, 1)),
                  Over(LoggedIn(2)))
  {
    w := ThenReads();
    var m := Move(2, Fine);
    Next(w, m);
    w := Step(w, m);
    assert w.drivers[2] == LogSettle(0, Row(Rec(true, 1), 2), 2, 3);
    Next(w, m);
    w := Step(w, m);
    Next(w, m);
    w := Step(w, m);
  }

  predicate Revives(w: World, e: Event) {
    && Active(w, 2) && !Active(w, 1)
    && Active(Step(w, e), 1) && !Active(Step(w, e), 2) && Ahead(Step(w, e))
  }

  /** The slower register is about to write the player record. */
  lemma SlowRegister() returns (w: World)
    ensures Reachable(w) && 1 in w.drivers && w.drivers[1] == RegPlayer(Row(RESERVED, 1), Row(Rec(true, 2), 3))
    ensures w.name == Some(Row(Rec(true, 2), 3)) && w.player == Some(Row(Rec(true, 2), 3))
  {
    w := ThenLogsIn();
    var m := Move(1, Fine);
    Next(w, m);
    w := Step(w, m);
    Next(w, m);
    w := Step(w, m);
    Next(w, m);
    w := Step(w, m);
  }

  /** The reset happens: after a login has been given generation 2, the slower register
      takes the player record back, so that session is dead, the name record is ahead,
      and generation 1, which the login had superseded, is active again. */
  lemma RegisterRevivesOldSession()
    ensures exists w :: Reachable(w) && Revives(w, Move(1, Fine))
  {
    var m := Move(1, Fine);
    var w := SlowRegister();
    assert Step(w, m).player == Some(Row(Rec(true, 1), 4));
    assert Revives(w, m);
  }
}
