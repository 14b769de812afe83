/** What every interleaving of claim and read drivers keeps. */
module MailClaimTheorems {
  import opened Common
  import opened MailClaim

  lemma LaterTwice(w: World, t: World, u: World)
    requires Later(w, t) && Later(t, u)
    ensures Later(w, u)
  {
    forall c | c in w.sagas ensures c in u.sagas && SagaLater(w.sagas[c], u.sagas[c]) {
      assert SagaLater(w.sagas[c], t.sagas[c]) && SagaLater(t.sagas[c], u.sagas[c]);
    }
  }

  lemma {:induction false} RunKeeps(w: World, es: seq<Event>)
    requires Inv(w)
    ensures Inv(RunAll(w, es)) && Later(w, RunAll(w, es))
    decreases |es|
  {
    hide Inv, Step, Later;
    SelfLater(w);
    if es != [] {
      StepKeeps(w, es[0]);
      RunKeeps(Step(w, es[0]), es[1..]);
      LaterTwice(w, Step(w, es[0]), RunAll(w, es));
    }
  }

  lemma FreshKeeps(es: seq<Event>)
    ensures Inv(RunAll(FRESH, es))
  {
    RunKeeps(FRESH, es);
  }

  /** From any point of any run on, a read mail stays read, a claimed mail stays
      claimed, a payment stays made, and each claim only moves along its path. */
  lemma NothingReverts(before: seq<Event>, after: seq<Event>)
    ensures var w := RunAll(FRESH, before);
      var t := RunAll(w, after);
      && (w.state.Some? ==> (
            && t.state.Some?
            && (w.state.value.value.read ==> t.state.value.value.read)
            && (w.state.value.value.claimed ==> t.state.value.value.claimed)))
      && w.paid <= t.paid
      && (forall c :: c in w.sagas ==> c in t.sagas && Path(w.sagas[c].value, t.sagas[c].value))
  {
    FreshKeeps(before);
    var w := RunAll(FRESH, before);
    RunKeeps(w, after);
    forall c | c in w.sagas ensures c in RunAll(w, after).sagas && Path(w.sagas[c].value, RunAll(w, after).sagas[c].value) {
      assert SagaLater(w.sagas[c], RunAll(w, after).sagas[c]);
    }
  }

  /** A durable COMPLETED claim has been paid and its mail is marked claimed; and the
      caller is only told so when that is the case. */
  lemma CompletedIsPaidAndMarked(es: seq<Event>)
    ensures var w := RunAll(FRESH, es);
      && (forall c :: c in w.sagas && w.sagas[c].value.Completed? ==> c in w.paid && IsClaimed(w))
      && (forall i :: i in w.drivers && w.drivers[i].run == Over(Claimed) ==> w.drivers[i].claim in w.paid && IsClaimed(w))
  {
    FreshKeeps(es);
    var w := RunAll(FRESH, es);
    hide RunAll;
    forall c | c in w.sagas && w.sagas[c].value.Completed? ensures c in w.paid && IsClaimed(w) {
      assert StatusOK(w, c, w.sagas[c].value);
    }
    forall i | i in w.drivers && w.drivers[i].run == Over(Claimed) ensures w.drivers[i].claim in w.paid && IsClaimed(w) {
      assert RunOK(w, w.drivers[i].claim, w.drivers[i].run);
      assert StatusOK(w, w.drivers[i].claim, w.sagas[w.drivers[i].claim].value);
    }
  }

  function Depth(run: Run): nat {
    match run
    case Loading(depth, _) => depth
    case Applying(depth, _, _) => depth
    case Recording(depth, _, _) => depth
    case MarkGet(depth, _, _, _) => depth
    case MarkInsert(depth, _, _, _) => depth
    case MarkUpdate(depth, _, _, _, _) => depth
    case Completing(depth, _, _) => depth
    case Withdrawing(depth, _) => depth
    case Finishing(depth, _, _) => depth
    case _ => 0
  }

  /** Advance and cancelClaim call each other at most once: the inner Advance finds the
      claim being cancelled, or cancelled, whatever other drivers do. */
  lemma RecursionIsShallow(es: seq<Event>, i: nat)
    requires i in RunAll(FRESH, es).drivers
    ensures Depth(RunAll(FRESH, es).drivers[i].run) <= 1
    ensures RunAll(FRESH, es).drivers[i].run.Withdrawing? ==>
      Depth(RunAll(FRESH, es).drivers[i].run) == 0
  {
    FreshKeeps(es);
    var w := RunAll(FRESH, es);
    hide RunAll;
    assert RunOK(w, w.drivers[i].claim, w.drivers[i].run);
  }

  /** What a caller is told is what the tables say. Claimed means COMPLETED; a claim that
      is not ready, or was refused for space, is never COMPLETED: the first is AVAILABLE
      again, the second on its way there; a mail reported read is marked read. */
  lemma AnswersAreTrue(es: seq<Event>, i: nat)
    requires var w := RunAll(FRESH, es); i in w.drivers && w.drivers[i].run.Over?
    ensures var w := RunAll(FRESH, es);
      var (c, o) := (w.drivers[i].claim, w.drivers[i].run.outcome);
      && (o.Claimed? ==> c in w.sagas && w.sagas[c].value.Completed? && c in w.paid && IsClaimed(w))
      && (o.NotReady? ==> c in w.sagas && w.sagas[c].value.Available?)
      && (o.Advanced? ==> c in w.sagas && (w.sagas[c].value.Completed? || w.sagas[c].value.Available?))
      && (o.ErrInventoryFull? ==>
            c in w.refused && c in w.sagas && (w.sagas[c].value.Cancelling? || w.sagas[c].value.Available?))
      && (o.Read? ==> w.state.Some? && w.state.value.value.read)
  {
    FreshKeeps(es);
    var w := RunAll(FRESH, es);
    hide RunAll;
    var d := w.drivers[i];
    assert RunOK(w, d.claim, d.run);
    if d.claim in w.sagas { assert StatusOK(w, d.claim, w.sagas[d.claim].value); }
  }

  function Room(k: nat): nat { if k < MAX_ATTEMPTS then MAX_ATTEMPTS - k else 0 }

  /** The work a driver still has: attempts left at its own depth and inside, and steps
      left in the attempt. It falls with every step, so every driver that keeps running
      comes to an end. */
  function Left(run: Run): nat {
    match run
    case Loading(depth, k) => (if depth == 0 then 1000 else 0) + 40 * Room(k) + 39
    case Applying(depth, k, _) => (if depth == 0 then 1000 else 0) + 40 * Room(k) + 38
    case Recording(depth, k, _) => (if depth == 0 then 1000 else 0) + 40 * Room(k) + 37
    case MarkGet(depth, k, _, j) => (if depth == 0 then 1000 else 0) + 40 * Room(k) + 4 * Room(j) + 3
    case MarkInsert(depth, k, _, j) => (if depth == 0 then 1000 else 0) + 40 * Room(k) + 4 * Room(j) + 2
    case MarkUpdate(depth, k, _, j, _) => (if depth == 0 then 1000 else 0) + 40 * Room(k) + 4 * Room(j) + 2
    case Completing(depth, k, _) => (if depth == 0 then 1000 else 0) + 40 * Room(k) + 1
    case Withdrawing(depth, _) => if depth == 0 then 1000 else 1
    case Finishing(depth, k, _) => (if depth == 0 then 1000 else 0) + 40 * Room(k) + 38
    case BeginRegistered => 2000
    case BeginMail => 1999
    case BeginGet => 1998
    case BeginList => 1997
    case BeginState => 1996
    case BeginInsert => 1995
    case BeginReget => 1994
    case FinalGet => 1
    case ReadGet(j) => 4 * Room(j) + 3
    case ReadInsert(j) => 4 * Room(j) + 2
    case ReadUpdate(j, _) => 4 * Room(j) + 2
    case Over(_) => 0
  }

  lemma BeginCounts(d: Driver, r: Reply)
    requires OfBegin(d.run)
    ensures Left(FeedBegin(d, r)) < Left(d.run) <= 2000
  {
  }

  lemma ReadCounts(d: Driver, r: Reply)
    requires OfRead(d.run)
    ensures Left(FeedRead(d, r)) < Left(d.run) <= 2000
  {
  }

  lemma LoadCounts(d: Driver, r: Reply)
    requires d.run.Loading?
    ensures Left(FeedAdvance(d, r)) < Left(d.run) <= 2000
  {
    hide Attempt;
  }

  lemma SagaCounts(d: Driver, r: Reply)
    requires d.run.Applying? || d.run.Recording? || d.run.Finishing?
    ensures Left(FeedAdvance(d, r)) < Left(d.run) <= 2000
  {
  }

  lemma MarkCounts(d: Driver, r: Reply)
    requires d.run.MarkGet? || d.run.MarkInsert? || d.run.MarkUpdate?
    ensures Left(FeedAdvance(d, r)) < Left(d.run) <= 2000
  {
  }

  lemma LastCounts(d: Driver, r: Reply)
    requires d.run.Completing? || (d.run.Withdrawing? && d.run.depth == 0)
    ensures Left(FeedAdvance(d, r)) < Left(d.run) <= 2000
  {
  }

  /** Whatever it is answered, every move of a reachable driver takes it closer to its
      end, and no driver starts more than 2000 moves away: markRead, ClaimMail and
      Advance with its recursion all terminate. */
  lemma EveryMoveCounts(es: seq<Event>, i: nat, r: Reply)
    requires i in RunAll(FRESH, es).drivers && !RunAll(FRESH, es).drivers[i].run.Over?
    ensures var d := RunAll(FRESH, es).drivers[i]; Left(Feed(d, r).run) < Left(d.run) <= 2000
  {
    RecursionIsShallow(es, i);
    var d := RunAll(FRESH, es).drivers[i];
    hide RunAll, Left, FeedAdvance, FeedBegin, FeedRead;
    if OfBegin(d.run) { BeginCounts(d, r); }
    else if OfRead(d.run) { ReadCounts(d, r); }
    else if d.run.MarkGet? || d.run.MarkInsert? || d.run.MarkUpdate? { MarkCounts(d, r); }
    else if d.run.Completing? || d.run.Withdrawing? { LastCounts(d, r); }
    else if d.run.Loading? { LoadCounts(d, r); }
    else { SagaCounts(d, r); }
  }

  // ------------------------------------------------------------- one payment

  /** Over every run the mail is paid at most once, whatever claims compete for it, and
      at most one of them is COMPLETED. */
  lemma PaidOnce(es: seq<Event>, a: nat, b: nat)
    ensures var w := RunAll(FRESH, es);
      && (a in w.paid && b in w.paid ==> a == b)
      && (a in w.sagas && b in w.sagas && w.sagas[a].value.Completed? && w.sagas[b].value.Completed? ==> a == b)
  {
    FreshKeeps(es);
    CompletedIsPaidAndMarked(es);
  }

  /** What becomes of a claim that lost: once the mail is paid to another claim, an open
      claim the zone never refused stays open for good. Every Advance of it fails, and
      nothing completes, cancels or returns it. */
  lemma {:induction false} LosingClaimStaysOpen(w: World, es: seq<Event>, winner: nat, loser: nat)
    requires Inv(w) && winner in w.paid && loser != winner && loser !in w.refused
    requires loser in w.sagas && Open(w.sagas[loser].value)
    ensures var t := RunAll(w, es); loser in t.sagas && Open(t.sagas[loser].value) && loser !in t.paid
    decreases |es|
  {
    if es == [] {
      return;
    }
    LoserKept(w, es[0], winner, loser);
    StepKeeps(w, es[0]);
    hide Inv, Step;
    LosingClaimStaysOpen(Step(w, es[0]), es[1..], winner, loser);
  }

  lemma LoserKept(w: World, e: Event, winner: nat, loser: nat)
    requires Inv(w) && winner in w.paid && loser != winner && loser !in w.refused
    requires loser in w.sagas && Open(w.sagas[loser].value)
    ensures var t := Step(w, e);
      winner in t.paid && loser !in t.refused && loser in t.sagas && Open(t.sagas[loser].value)
  {
    hide Inv, Later, SagasOK, ZoneOK, RunOK, DriversOK;
    StepKeeps(w, e);
    OpenOrPaid(Step(w, e), winner, loser);
    PaidRefusesNoMore(w, e);
    LaterSagas(w, Step(w, e), loser);
  }

  lemma LaterSagas(w: World, t: World, c: nat)
    requires Later(w, t) && c in w.sagas
    ensures c in t.sagas && Path(w.sagas[c].value, t.sagas[c].value) && w.paid <= t.paid
  {
    assert SagaLater(w.sagas[c], t.sagas[c]);
  }

  lemma PaidRefusesNoMore(w: World, e: Event)
    requires w.paid != {}
    ensures Step(w, e).refused == w.refused
  {
  }

  lemma OpenOrPaid(t: World, winner: nat, loser: nat)
    requires Inv(t)
    ensures winner in t.paid && loser != winner && loser !in t.refused && loser in t.sagas ==>
      Open(t.sagas[loser].value) || t.sagas[loser].value.Other?
    ensures winner in t.paid && loser != winner ==> loser !in t.paid
  {
    if loser in t.sagas { assert StatusOK(t, loser, t.sagas[loser].value); }
  }

  // ------------------------------------------------------------- paid, yet given back

  /** A claim was given back to the player as available although its reward was paid. */
  predicate PaidAndAvailable(w: World, c: nat) {
    c in w.sagas && w.sagas[c].value.Available? && c in w.paid
  }

  /** A driver's write of AVAILABLE lands after another driver was paid. */
  predicate ReturnsPaid(w: World, e: Event, c: nat) {
    && e.Move? && e.id in w.drivers && !e.fault.Refuse? && w.drivers[e.id].claim == c && c in w.paid
    && w.drivers[e.id].run.Finishing?
    && c in w.sagas && w.sagas[c].version == w.drivers[e.id].run.saga.version
  }

  /** A driver that loaded the claim before it was given back still asks the zone, and
      the zone pays. */
  predicate PaysReturned(w: World, e: Event, c: nat) {
    && e.Move? && e.id in w.drivers && !e.fault.Refuse? && w.drivers[e.id].claim == c && w.paid == {} && e.choice.Pay?
    && w.drivers[e.id].run.Applying?
    && c in w.sagas && w.sagas[c].value.Available?
  }

  lemma GivenBackArisesIff(w: World, e: Event, c: nat)
    requires Inv(w) && !PaidAndAvailable(w, c)
    ensures PaidAndAvailable(Step(w, e), c) <==> ReturnsPaid(w, e, c) || PaysReturned(w, e, c)
  {
    hide SagasOK, ZoneOK, FeedBegin, FeedAdvance, FeedRead, Blocking;
    if e.Move? && e.id in w.drivers { assert RunOK(w, w.drivers[e.id].claim, w.drivers[e.id].run); }
  }

  lemma GivenBackStays(w: World, e: Event, c: nat)
    requires Inv(w) && PaidAndAvailable(w, c)
    ensures PaidAndAvailable(Step(w, e), c)
  {
    hide Inv, Step, Later;
    StepKeeps(w, e);
    LaterSagas(w, Step(w, e), c);
  }

  ghost predicate GivesBackPaid(w: World, es: seq<Event>, c: nat)
    decreases |es|
  {
    es != [] && (ReturnsPaid(w, es[0], c) || PaysReturned(w, es[0], c) || GivesBackPaid(Step(w, es[0]), es[1..], c))
  }

  lemma {:induction false} GivenBackFrom(w: World, es: seq<Event>, c: nat)
    requires Inv(w)
    ensures PaidAndAvailable(RunAll(w, es), c) <==> PaidAndAvailable(w, c) || GivesBackPaid(w, es, c)
    decreases |es|
  {
    hide Inv, Step, PaidAndAvailable, ReturnsPaid, PaysReturned;
    if es != [] {
      StepKeeps(w, es[0]);
      if PaidAndAvailable(w, c) {
        GivenBackStays(w, es[0], c);
      } else {
        GivenBackArisesIff(w, es[0], c);
      }
      GivenBackFrom(Step(w, es[0]), es[1..], c);
    }
  }

  /** A run ends with a paid claim given back if and only if one of its steps returns a
      claim that was paid or pays one that was returned; and that takes a zone that has
      both refused and paid this claim. */
  lemma GivenBackPaidIff(es: seq<Event>, c: nat)
    ensures PaidAndAvailable(RunAll(FRESH, es), c) <==> GivesBackPaid(FRESH, es, c)
    ensures PaidAndAvailable(RunAll(FRESH, es), c) ==> c in RunAll(FRESH, es).paid && c in RunAll(FRESH, es).refused
  {
    GivenBackFrom(FRESH, es, c);
    FreshKeeps(es);
    var w := RunAll(FRESH, es);
    hide RunAll, GivesBackPaid;
    if c in w.sagas { assert StatusOK(w, c, w.sagas[c].value); }
  }

  ghost predicate Reachable(w: World) { exists es :: w == RunAll(FRESH, es) }

  lemma {:induction false} RunOneMore(w: World, es: seq<Event>, e: Event)
    ensures RunAll(w, es + [e]) == Step(RunAll(w, es), e)
    decreases |es|
  {
    hide Step;
    if es == [] {
      assert RunAll(w, [e]) == RunAll(Step(w, e), []);
    } else {
      assert (es + [e])[1..] == es[1..] + [e];
      RunOneMore(Step(w, es[0]), es[1..], e);
    }
  }

  lemma Next(w: World, e: Event) returns (t: World)
    requires Reachable(w)
    ensures t == Step(w, e) && Reachable(t)
  {
    hide Step;
    var es :| w == RunAll(FRESH, es);
    RunOneMore(FRESH, es, e);
    t := Step(w, e);
  }

  /** Driver 0 is beginning claim 7. */
  lemma Beginning() returns (w: World)
    ensures Reachable(w) && w.drivers.Keys == {0, 1} && w.state.None? && w.paid == {} && w.refused == {}
    ensures w.sagas == map[]
    ensures w.drivers[0] == Driver(7, true, BeginList) && w.drivers[1] == Driver(7, false, Loading(0, 0))
  {
    assert FRESH == RunAll(FRESH, []);
    w := Next(FRESH, StartClaim(0, 7, true));
    w := Next(w, StartAdvance(1, 7));
    w := Next(w, Move(0, Fine, Pay));
    assert w.drivers[0].run == BeginGet;
    w := Next(w, Move(0, Fine, Decline));
  }

  /** Driver 0 has begun it. */
  lemma Begun() returns (w: World)
    ensures Reachable(w) && w.drivers.Keys == {0, 1} && w.state.None? && w.paid == {} && w.refused == {}
    ensures w.sagas == map[7 := Row(Claiming, 1)]
    ensures w.drivers[0] == Driver(7, true, Loading(0, 0)) && w.drivers[1] == Driver(7, false, Loading(0, 0))
  {
    var m := Move(0, Fine, Decline);
    w := Beginning();
    w := Next(w, m);
    assert w.drivers[0].run == BeginState;
    w := Unread(w);
    w := Next(w, m);
  }

  lemma Unread(w: World) returns (t: World)
    requires Reachable(w) && 0 in w.drivers && w.drivers[0].run == BeginState && w.state.None?
    ensures Reachable(t) && t == w.(drivers := w.drivers[0 := w.drivers[0].(run := BeginInsert)])
  {
    t := Next(w, Move(0, Fine, Decline));
  }

  /** Both drivers are about to ask the zone. */
  lemma BothAsk() returns (w: World)
    ensures Reachable(w) && w.drivers.Keys == {0, 1} && w.paid == {} && w.refused == {}
    ensures w.sagas == map[7 := Row(Claiming, 1)]
    ensures w.drivers[0] == Driver(7, true, Applying(0, 0, Row(Claiming, 1)))
    ensures w.drivers[1] == Driver(7, false, Applying(0, 0, Row(Claiming, 1)))
  {
    w := Begun();
    w := Next(w, Move(0, Fine, Decline));
    w := Next(w, Move(1, Fine, Decline));
  }

  /** The zone refuses driver 0 for a full inventory, then pays driver 1. */
  lemma RefusedThenPaid() returns (w: World)
    ensures Reachable(w) && w.drivers.Keys == {0, 1} && 7 in w.paid && w.sagas == map[7 := Row(Claiming, 1)]
    ensures w.drivers[0] == Driver(7, true, Withdrawing(0, Row(Claiming, 1)))
  {
    w := BothAsk();
    w := Next(w, Move(0, Fine, Choice.Refuse));
    w := Next(w, Move(1, Fine, Pay));
  }

  lemma Withdrawn() returns (w: World)
    ensures Reachable(w) && 7 in w.paid && 7 in w.sagas && w.sagas[7] == Row(Cancelling, 2)
    ensures 0 in w.drivers && w.drivers[0] == Driver(7, true, Loading(1, 0))
  {
    w := RefusedThenPaid();
    w := Next(w, Move(0, Fine, Decline));
  }

  /** It happens: the refused driver withdraws the claim that the other was paid for. */
  lemma GivenBack() returns (w: World)
    ensures Reachable(w) && PaidAndAvailable(w, 7)
  {
    w := Withdrawn();
    w := Next(w, Move(0, Fine, Decline));
    assert w.drivers[0].run == Finishing(1, 0, Row(Cancelling, 2));
    w := Next(w, Move(0, Fine, Decline));
  }
}
