/** What a claim or a read that nobody disturbs does: every lookup finds its row, every
    store call is answered, the zone pays if it still can, and no other driver moves. From
    every reachable state the answer and the tables are determined. */
module MailAlone {
  import opened Common
  import opened MailClaim
  import opened MailClaimTheorems

  /** `n` answered calls of one driver. */
  function Alone(w: World, id: nat, n: nat): World {
    if n == 0 then w else Step(Alone(w, id, n - 1), Move(id, Fine, Pay))
  }

  lemma {:induction false} AloneOn(w: World, id: nat, m: nat, n: nat)
    ensures Alone(Alone(w, id, m), id, n) == Alone(w, id, m + n)
    decreases n
  {
    hide Step;
    if n > 0 { AloneOn(w, id, m, n - 1); }
  }

  /** A driver that has answered makes no more calls. */
  lemma {:induction false} AloneRests(w: World, id: nat, n: nat)
    requires id in w.drivers && w.drivers[id].run.Over?
    ensures Alone(w, id, n) == w
  {
    if n > 0 {
      AloneRests(w, id, n - 1);
      OverStays(w, id);
    }
  }

  lemma OverStays(w: World, id: nat)
    requires id in w.drivers && w.drivers[id].run.Over?
    ensures Step(w, Move(id, Fine, Pay)) == w
  {
    assert w.drivers[id := w.drivers[id]] == w.drivers;
  }

  /** A world in which driver `id` has come from `w` in `k` calls. */
  predicate Came(w: World, t: World, id: nat, k: nat) { t == Alone(w, id, k) }

  /** The driver of claim `c` makes one call. */
  lemma Goes(w: World, t: World, id: nat, k: nat) returns (u: World)
    requires Came(w, t, id, k) && id in t.drivers
    ensures Came(w, u, id, k + 1)
    ensures var (s, r) := Perform(t, CallOf(t.drivers[id]), Pay);
      u == SetDriver(s, id, Feed(t.drivers[id], r))
  {
    hide Perform, CallOf, Feed;
    u := Step(t, Move(id, Fine, Pay));
  }

  predicate At(t: World, id: nat, d: Driver) { id in t.drivers && t.drivers[id] == d }

  function Put(t: World, c: nat, s: Status, v: nat): World { t.(sagas := t.sagas[c := Row(s, v)]) }

  /** The bits once the mail is marked claimed; whoever set the bit, it stays. */
  predicate Marked(w: World, t: World) {
    t.state.Some? && t.state.value.value.claimed
    && (w.state.Some? && w.state.value.value.claimed ==> t.state == w.state)
    && (!(w.state.Some? && w.state.value.value.claimed) ==> t.state.value.value.read)
  }

  /** What one call of the driver at this point gives; nothing but it and the answer. */
  lemma GoesTo(w: World, t: World, id: nat, k: nat, d: Driver, s: World, r: Reply) returns (u: World)
    requires Came(w, t, id, k) && At(t, id, d) && Perform(t, CallOf(d), Pay) == (s, r) && s.drivers == t.drivers
    ensures Came(w, u, id, k + 1) && At(u, id, Feed(d, r)) && u == s.(drivers := t.drivers[id := Feed(d, r)])
  {
    hide Perform, CallOf, Feed;
    u := Goes(w, t, id, k);
  }

  /** The mark loop, undisturbed. */
  lemma Marks(w: World, t: World, id: nat, k: nat, c: nat, n: nat, row: Row<Status>) returns (u: World, l: nat)
    requires Came(w, t, id, k) && At(t, id, Driver(c, true, MarkGet(0, n, row, 0)))
    ensures k <= l <= k + 2 && Came(w, u, id, l) && At(u, id, Driver(c, true, Completing(0, n, row)))
    ensures Marked(t, u) && u == t.(state := u.state, drivers := u.drivers)
  {
    hide Came, Alone;
    var d := Driver(c, true, MarkGet(0, n, row, 0));
    if t.state.None? {
      u := GoesTo(w, t, id, k, d, t, NotFound);
      u := GoesTo(w, u, id, k + 1, Driver(c, true, MarkInsert(0, n, row, 0)), u.(state := Some(Row(Bits(true, true), 1))), Done);
      l := k + 2;
    } else {
      var bits := t.state.value;
      u := GoesTo(w, t, id, k, d, t, State(bits.value, bits.version));
      l := k + 1;
      if !bits.value.claimed {
        u := GoesTo(w, u, id, k + 1, Driver(c, true, MarkUpdate(0, n, row, 0, bits)),
                    u.(state := Some(Row(Bits(true, true), bits.version + 1))), Done);
        l := k + 2;
      }
    }
  }

  /** From PLAYER_APPLIED the mail is marked and the claim completed. */
  lemma FromPlayerApplied(w: World, t: World, id: nat, k: nat, c: nat, n: nat) returns (u: World, l: nat)
    requires Came(w, t, id, k) && At(t, id, Driver(c, true, Loading(0, n)))
    requires c in t.sagas && t.sagas[c].value.PlayerApplied?
    ensures k <= l <= k + 5 && Came(w, u, id, l) && At(u, id, Driver(c, true, Over(Claimed))) && Marked(t, u)
    ensures u == Put(t, c, Completed, t.sagas[c].version + 1).(state := u.state, drivers := u.drivers)
  {
    hide Came, Alone, Marked;
    var row := t.sagas[c];
    u := GoesTo(w, t, id, k, Driver(c, true, Loading(0, n)), t, Saga(row.value, row.version));
    u, l := Marks(w, u, id, k + 1, c, n, row);
    MarkedBy(t, u);
    u := Completes(w, u, id, l, c, n, row);
    l := l + 2;
  }

  lemma MarkedBy(t: World, u: World)
    ensures forall x: World :: x.state == t.state && Marked(x, u) ==> Marked(t, u)
    ensures forall y: World :: y.state == u.state && Marked(t, u) ==> Marked(t, y)
  {}

  lemma Completes(w: World, t: World, id: nat, k: nat, c: nat, n: nat, row: Row<Status>) returns (u: World)
    requires Came(w, t, id, k) && At(t, id, Driver(c, true, Completing(0, n, row))) && c in t.sagas && t.sagas[c] == row
    ensures Came(w, u, id, k + 2) && At(u, id, Driver(c, true, Over(Claimed)))
    ensures u == Put(t, c, Completed, row.version + 1).(drivers := u.drivers)
  {
    hide Came, Alone;
    u := GoesTo(w, t, id, k, Driver(c, true, Completing(0, n, row)), Put(t, c, Completed, row.version + 1), Done);
    u := GoesTo(w, u, id, k + 1, Driver(c, true, FinalGet), u, Saga(Completed, row.version + 1));
  }

  /** The zone pays this claim, or has. */
  predicate Payable(t: World, c: nat) { t.paid == {} || c in t.paid }

  /** From CLAIMING the zone pays and the claim is completed. */
  lemma FromOpen(w: World, t: World, id: nat, k: nat, c: nat) returns (u: World, l: nat)
    requires Came(w, t, id, k) && At(t, id, Driver(c, true, Loading(0, 0)))
    requires c in t.sagas && Open(t.sagas[c].value) && Payable(t, c)
    ensures k <= l <= k + 8 && Came(w, u, id, l) && At(u, id, Driver(c, true, Over(Claimed))) && Marked(t, u)
    ensures u == Put(t, c, Completed, t.sagas[c].version + 2).(paid := t.paid + {c}, state := u.state, drivers := u.drivers)
  {
    hide Came, Alone, Marked;
    var row := t.sagas[c];
    u := GoesTo(w, t, id, k, Driver(c, true, Loading(0, 0)), t, Saga(row.value, row.version));
    assert c in t.paid ==> t.paid + {c} == t.paid;
    u := GoesTo(w, u, id, k + 1, Driver(c, true, Applying(0, 0, row)), u.(paid := t.paid + {c}), Paid);
    u := GoesTo(w, u, id, k + 2, Driver(c, true, Recording(0, 0, row)), Put(u, c, PlayerApplied, row.version + 1), Done);
    MarkedBy(t, u);
    u, l := FromPlayerApplied(w, u, id, k + 3, c, 1);
    assert u.sagas == t.sagas[c := Row(Completed, row.version + 2)];
    MarkedBy(t, u);
  }

  /** A second claim of a paid mail is declined, and stays as it is. */
  lemma FromLosing(w: World, t: World, id: nat, k: nat, c: nat) returns (u: World)
    requires Came(w, t, id, k) && At(t, id, Driver(c, true, Loading(0, 0)))
    requires c in t.sagas && Open(t.sagas[c].value) && !Payable(t, c)
    ensures Came(w, u, id, k + 2) && At(u, id, Driver(c, true, Over(ErrOther))) && u == t.(drivers := u.drivers)
  {
    hide Came, Alone;
    var row := t.sagas[c];
    u := GoesTo(w, t, id, k, Driver(c, true, Loading(0, 0)), t, Saga(row.value, row.version));
    u := GoesTo(w, u, id, k + 1, Driver(c, true, Applying(0, 0, row)), u, Declined);
  }

  /** A claim that is being cancelled is given back. */
  lemma FromCancelling(w: World, t: World, id: nat, k: nat, c: nat) returns (u: World)
    requires Came(w, t, id, k) && At(t, id, Driver(c, true, Loading(0, 0)))
    requires c in t.sagas && t.sagas[c].value.Cancelling?
    ensures Came(w, u, id, k + 2) && At(u, id, Driver(c, true, Over(ErrInventoryFull)))
    ensures u == Put(t, c, Available, t.sagas[c].version + 1).(drivers := u.drivers)
  {
    hide Came, Alone;
    var row := t.sagas[c];
    u := GoesTo(w, t, id, k, Driver(c, true, Loading(0, 0)), t, Saga(row.value, row.version));
    u := GoesTo(w, u, id, k + 1, Driver(c, true, Finishing(0, 0, row)), Put(u, c, Available, row.version + 1), Done);
  }

  lemma FromAvailable(w: World, t: World, id: nat, k: nat, c: nat) returns (u: World)
    requires Came(w, t, id, k) && At(t, id, Driver(c, true, Loading(0, 0)))
    requires c in t.sagas && t.sagas[c].value.Available?
    ensures Came(w, u, id, k + 2) && At(u, id, Driver(c, true, Over(NotReady))) && u == t.(drivers := u.drivers)
  {
    hide Came, Alone;
    var row := t.sagas[c];
    u := GoesTo(w, t, id, k, Driver(c, true, Loading(0, 0)), t, Saga(row.value, row.version));
    u := GoesTo(w, u, id, k + 1, Driver(c, true, FinalGet), u, Saga(row.value, row.version));
  }

  lemma FromOther(w: World, t: World, id: nat, k: nat, c: nat) returns (u: World)
    requires Came(w, t, id, k) && At(t, id, Driver(c, true, Loading(0, 0)))
    requires c in t.sagas && t.sagas[c].value.Other?
    ensures Came(w, u, id, k + 1) && At(u, id, Driver(c, true, Over(ErrOther))) && u == t.(drivers := u.drivers)
  {
    hide Came, Alone;
    var row := t.sagas[c];
    u := GoesTo(w, t, id, k, Driver(c, true, Loading(0, 0)), t, Saga(row.value, row.version));
  }

  // ------------------------------------------------------------- ClaimMail

  predicate Blocked(w: World, c: nat) { exists o :: o in w.sagas && o != c && Blocking(w.sagas[o].value) }

  /** The answer of an undisturbed ClaimMail, from the tables it finds. */
  function ClaimAnswer(w: World, c: nat): Outcome {
    if c in w.sagas then
      match w.sagas[c].value
      case Completed => Claimed
      case PlayerApplied => Claimed
      case Available => NotReady
      case Cancelling => ErrInventoryFull
      case Other => ErrOther
      case _ => if Payable(w, c) then Claimed else ErrOther
    else if Blocked(w, c) || IsClaimed(w) then ErrConflict
    else if Payable(w, c) then Claimed
    else ErrOther
  }

  /** How the tables stand after it. */
  predicate Settled(w: World, t: World, c: nat, o: Outcome) {
    && (forall x :: x in w.sagas && x != c ==> x in t.sagas && t.sagas[x] == w.sagas[x])
    && t.refused == w.refused
    && (o.Claimed? ==>
          && c in t.sagas && t.sagas[c].value.Completed? && t.paid == w.paid + {c}
          && t.state.Some? && t.state.value.value.claimed
          && (IsClaimed(w) ==> t.state == w.state) && (!IsClaimed(w) ==> t.state.value.value.read))
    && (!o.Claimed? ==> t.paid == w.paid && t.state == w.state)
    && (o.ErrInventoryFull? ==> c in t.sagas && t.sagas[c].value.Available?)
    && (o.ErrConflict? || o.NotReady? ==> t.sagas == w.sagas)
    && (o.ErrOther? ==> c in t.sagas && !t.sagas[c].value.Completed? && !t.sagas[c].value.Available?)
  }

  /** From the first load inside Advance with any claim a reachable world has. */
  lemma FromLoading(w: World, t: World, id: nat, k: nat, c: nat) returns (u: World, l: nat)
    requires Came(w, t, id, k) && At(t, id, Driver(c, true, Loading(0, 0))) && Inv(t)
    requires c in t.sagas && !t.sagas[c].value.Completed?
    ensures k <= l <= k + 8 && Came(w, u, id, l) && At(u, id, Driver(c, true, Over(ClaimAnswer(t, c))))
    ensures Settled(t, u, c, ClaimAnswer(t, c))
  {
    hide Came, Alone, Inv, Settled, Marked;
    var row := t.sagas[c];
    PaidAlready(t, c);
    match row.value {
      case Completed =>
      case PlayerApplied =>
        u, l := FromPlayerApplied(w, t, id, k, c, 0);
        SettlesPaid(t, u, c, row.version + 1);
      case Available => u := FromAvailable(w, t, id, k, c); l := k + 2; SettlesSame(t, u, c);
      case Cancelling => u := FromCancelling(w, t, id, k, c); l := k + 2; SettlesBack(t, u, c);
      case Other => u := FromOther(w, t, id, k, c); l := k + 1; SettlesSame(t, u, c);
      case _ => u, l := OpenAlone(w, t, id, k, c);
    }
  }

  lemma PaidAlready(t: World, c: nat)
    requires Inv(t) && c in t.sagas
    ensures t.sagas[c].value.PlayerApplied? ==> t.paid + {c} == t.paid
  {
    assert StatusOK(t, c, t.sagas[c].value);
  }

  lemma OpenAlone(w: World, t: World, id: nat, k: nat, c: nat) returns (u: World, l: nat)
    requires Came(w, t, id, k) && At(t, id, Driver(c, true, Loading(0, 0))) && c in t.sagas && Open(t.sagas[c].value)
    ensures k <= l <= k + 8 && Came(w, u, id, l) && At(u, id, Driver(c, true, Over(ClaimAnswer(t, c))))
    ensures Settled(t, u, c, ClaimAnswer(t, c))
  {
    hide Came, Alone, Settled, Marked;
    if Payable(t, c) {
      u, l := FromOpen(w, t, id, k, c);
      SettlesPaid(t, u, c, t.sagas[c].version + 2);
    } else {
      u := FromLosing(w, t, id, k, c);
      l := k + 2;
      SettlesSame(t, u, c);
    }
  }

  lemma SettlesPaid(t: World, u: World, c: nat, v: nat)
    requires u == Put(t, c, Completed, v).(paid := t.paid + {c}, state := u.state, drivers := u.drivers) && Marked(t, u)
    ensures Settled(t, u, c, Claimed)
  {}

  lemma SettlesSame(t: World, u: World, c: nat)
    requires c in t.sagas && u == t.(drivers := u.drivers)
    ensures Settled(t, u, c, NotReady) && (!t.sagas[c].value.Completed? && !t.sagas[c].value.Available? ==> Settled(t, u, c, ErrOther))
  {}

  lemma SettlesBack(t: World, u: World, c: nat)
    requires c in t.sagas && u == Put(t, c, Available, t.sagas[c].version + 1).(drivers := u.drivers)
    ensures Settled(t, u, c, ErrInventoryFull)
  {}

  /** The lookups before a claim, undisturbed. */
  lemma LooksUp(w: World, s: World, id: nat, c: nat, hinted: bool) returns (u: World, l: nat)
    requires Came(w, s, id, 0) && At(s, id, Driver(c, true, StartOfClaim(hinted)))
    ensures l <= 2 && Came(w, u, id, l) && u == SetDriver(s, id, Driver(c, true, BeginGet))
  {
    hide Came, Alone;
    u, l := s, 0;
    if !hinted {
      u := GoesTo(w, s, id, 0, Driver(c, true, BeginRegistered), s, Done);
      l := 1;
    }
    u := GoesTo(w, u, id, l, Driver(c, true, BeginMail), u, Done);
    l := l + 1;
  }

  /** A claim that is there already. */
  lemma KnownAlone(w: World, t: World, id: nat, k: nat, c: nat) returns (u: World, l: nat)
    requires Came(w, t, id, k) && At(t, id, Driver(c, true, BeginGet)) && Inv(t) && c in t.sagas
    ensures k <= l <= k + 9 && Came(w, u, id, l) && At(u, id, Driver(c, true, Over(ClaimAnswer(t, c))))
    ensures Settled(t, u, c, ClaimAnswer(t, c))
  {
    hide Came, Alone, Settled, ClaimAnswer;
    var row := t.sagas[c];
    u := GoesTo(w, t, id, k, Driver(c, true, BeginGet), t, Saga(row.value, row.version));
    l := k + 1;
    if row.value.Completed? {
      CompletedAlready(t, u, c);
    } else {
      var v := u;
      SameInv(t, v, id, c);
      u, l := FromLoading(w, v, id, k + 1, c);
      SameSettled(t, v, u, c);
    }
  }

  lemma CompletedAlready(t: World, u: World, c: nat)
    requires Inv(t) && c in t.sagas && t.sagas[c].value.Completed? && u == t.(drivers := u.drivers)
    ensures ClaimAnswer(t, c) == Claimed && Settled(t, u, c, Claimed)
  {
    assert StatusOK(t, c, t.sagas[c].value);
    assert t.paid + {c} == t.paid;
  }

  lemma SameInv(t: World, v: World, id: nat, c: nat)
    requires Inv(t) && id in t.drivers && v == SetDriver(t, id, Driver(c, true, Loading(0, 0)))
    ensures Inv(v)
  {
    RowsStay(t, v);
    forall i | i in v.drivers ensures RunOK(v, v.drivers[i].claim, v.drivers[i].run) {
      if i != id { SameRun(t, v, t.drivers[i].claim, t.drivers[i].run); }
    }
  }

  lemma RowsStay(t: World, v: World)
    requires SagasOK(t) && ZoneOK(t) && v == t.(drivers := v.drivers)
    ensures SagasOK(v) && ZoneOK(v)
  {
    forall c | c in v.sagas ensures StatusOK(v, c, v.sagas[c].value) { assert StatusOK(t, c, t.sagas[c].value); }
  }

  lemma SameSettled(t: World, v: World, u: World, c: nat)
    requires v == t.(drivers := v.drivers) && Settled(v, u, c, ClaimAnswer(v, c))
    ensures ClaimAnswer(t, c) == ClaimAnswer(v, c) && Settled(t, u, c, ClaimAnswer(t, c))
  {}

  /** A new claim that nothing keeps out. */
  lemma NewAlone(w: World, t: World, id: nat, k: nat, c: nat) returns (u: World, l: nat)
    requires Came(w, t, id, k) && At(t, id, Driver(c, true, BeginGet)) && c !in t.sagas && !Blocked(t, c) && !IsClaimed(t)
    ensures k <= l <= k + 12 && Came(w, u, id, l) && At(u, id, Driver(c, true, Over(ClaimAnswer(t, c))))
    ensures Settled(t, u, c, ClaimAnswer(t, c))
  {
    hide Came, Alone;
    u := GoesTo(w, t, id, k, Driver(c, true, BeginGet), t, NotFound);
    u := GoesTo(w, u, id, k + 1, Driver(c, true, BeginList), u, Free);
    u := GoesTo(w, u, id, k + 2, Driver(c, true, BeginState), u,
                if u.state.None? then NotFound else State(u.state.value.value, u.state.value.version));
    u := GoesTo(w, u, id, k + 3, Driver(c, true, BeginInsert), Put(u, c, Claiming, 1), Done);
    var v := u;
    hide Settled, Marked;
    MarkedBy(t, v);
    if Payable(t, c) {
      u, l := FromOpen(w, v, id, k + 4, c);
      SettlesNew(t, u, c);
    } else {
      u := FromLosing(w, v, id, k + 4, c);
      l := k + 6;
      SettlesOpen(t, u, c);
    }
  }

  lemma SettlesNew(t: World, u: World, c: nat)
    requires c !in t.sagas && Marked(t, u)
    requires u == Put(t, c, Completed, 3).(paid := t.paid + {c}, state := u.state, drivers := u.drivers)
    ensures Settled(t, u, c, Claimed)
  {}

  lemma SettlesOpen(t: World, u: World, c: nat)
    requires c !in t.sagas && u == Put(t, c, Claiming, 1).(drivers := u.drivers)
    ensures Settled(t, u, c, ErrOther)
  {}

  /** A new claim that another claim or the claimed bit keeps out. */
  lemma KeptOut(w: World, t: World, id: nat, k: nat, c: nat) returns (u: World, l: nat)
    requires Came(w, t, id, k) && At(t, id, Driver(c, true, BeginGet)) && c !in t.sagas && (Blocked(t, c) || IsClaimed(t))
    ensures k <= l <= k + 3 && Came(w, u, id, l) && At(u, id, Driver(c, true, Over(ErrConflict)))
    ensures u == t.(drivers := u.drivers)
  {
    hide Came, Alone;
    u := GoesTo(w, t, id, k, Driver(c, true, BeginGet), t, NotFound);
    u := GoesTo(w, u, id, k + 1, Driver(c, true, BeginList), u, if Blocked(u, c) then Reply.Blocked else Free);
    l := k + 2;
    if !Blocked(t, c) {
      u := GoesTo(w, u, id, k + 2, Driver(c, true, BeginState), u, State(u.state.value.value, u.state.value.version));
      l := k + 3;
    }
  }

  /** What ClaimMail does from every reachable state when nobody disturbs it, in at most
      fourteen calls: a claim that can be paid is paid once, its mail marked and read, and
      its caller told that it is claimed; every other claim is answered by what the tables
      say of it. */
  lemma ClaimAlone(es: seq<Event>, id: nat, c: nat, hinted: bool, m: nat)
    requires id !in RunAll(FRESH, es).drivers && m >= 14
    ensures var w := RunAll(FRESH, es);
      var t := Alone(Step(w, StartClaim(id, c, hinted)), id, m);
      && At(t, id, Driver(c, true, Over(ClaimAnswer(w, c)))) && Settled(w, t, c, ClaimAnswer(w, c))
  {
    hide Step, Inv, Settled, ClaimAnswer, Alone, RunAll;
    FreshKeeps(es);
    var w := RunAll(FRESH, es);
    var s := Step(w, StartClaim(id, c, hinted));
    StepKeeps(w, StartClaim(id, c, hinted));
    Started(w, id, c, hinted);
    var u, l := ClaimFrom(w, s, id, c, hinted);
    AloneOn(s, id, l, m - l);
    AloneRests(u, id, m - l);
  }

  lemma Started(w: World, id: nat, c: nat, hinted: bool)
    requires id !in w.drivers
    ensures Step(w, StartClaim(id, c, hinted)) == SetDriver(w, id, Driver(c, true, StartOfClaim(hinted)))
  {}

  lemma ClaimFrom(w: World, s: World, id: nat, c: nat, hinted: bool) returns (u: World, l: nat)
    requires Inv(s) && s == SetDriver(w, id, Driver(c, true, StartOfClaim(hinted)))
    ensures l <= 14 && Came(s, u, id, l) && At(u, id, Driver(c, true, Over(ClaimAnswer(w, c))))
    ensures Settled(w, u, c, ClaimAnswer(w, c))
  {
    hide Inv, Settled, ClaimAnswer, Alone, Came;
    assert Came(s, s, id, 0) by { Begins(s, id); }
    var t, k := LooksUp(s, s, id, c, hinted);
    LookedUp(s, t, id, c, hinted);
    u, l := BeginsAlone(s, t, id, k, c);
    SameSettled(w, t, u, c);
  }

  lemma Begins(s: World, id: nat)
    ensures Came(s, s, id, 0)
  {}

  lemma BeginsAlone(w: World, t: World, id: nat, k: nat, c: nat) returns (u: World, l: nat)
    requires Came(w, t, id, k) && At(t, id, Driver(c, true, BeginGet)) && Inv(t)
    ensures k <= l <= k + 12 && Came(w, u, id, l) && At(u, id, Driver(c, true, Over(ClaimAnswer(t, c))))
    ensures Settled(t, u, c, ClaimAnswer(t, c))
  {
    hide Came, Inv, Settled, ClaimAnswer, Alone;
    if c in t.sagas {
      u, l := KnownAlone(w, t, id, k, c);
    } else if Blocked(t, c) || IsClaimed(t) {
      u, l := KeptOut(w, t, id, k, c);
      Refused(t, u, c);
    } else {
      u, l := NewAlone(w, t, id, k, c);
    }
  }

  lemma Refused(t: World, u: World, c: nat)
    requires c !in t.sagas && (Blocked(t, c) || IsClaimed(t)) && u == t.(drivers := u.drivers)
    ensures ClaimAnswer(t, c) == ErrConflict && Settled(t, u, c, ErrConflict)
  {}

  lemma LookedUp(s: World, t: World, id: nat, c: nat, hinted: bool)
    requires Inv(s) && id in s.drivers && t == s.(drivers := t.drivers)
    requires t.drivers == s.drivers[id := Driver(c, true, BeginGet)]
    ensures Inv(t)
  {
    RowsStay(s, t);
    forall i | i in t.drivers ensures RunOK(t, t.drivers[i].claim, t.drivers[i].run) {
      if i != id { SameRun(s, t, s.drivers[i].claim, s.drivers[i].run); }
    }
  }

  lemma {:induction false} AloneReachable(w: World, id: nat, n: nat)
    requires Reachable(w)
    ensures Reachable(Alone(w, id, n))
  {
    hide Step;
    if n > 0 {
      AloneReachable(w, id, n - 1);
      var t := Next(Alone(w, id, n - 1), Move(id, Fine, Pay));
    }
  }

  /** The ordinary case: the first claim of a mail is paid, and its caller told so. */
  lemma FirstClaimIsPaid(c: nat, hinted: bool) returns (t: World)
    ensures Reachable(t) && At(t, 0, Driver(c, true, Over(Claimed)))
    ensures c in t.sagas && t.sagas[c].value.Completed? && t.paid == {c}
    ensures t.state.Some? && t.state.value.value == Bits(true, true)
  {
    hide Step, Alone;
    assert FRESH == RunAll(FRESH, []);
    var s := Next(FRESH, StartClaim(0, c, hinted));
    ClaimAlone([], 0, c, hinted, 14);
    AloneReachable(s, 0, 14);
    t := Alone(s, 0, 14);
    assert ClaimAnswer(FRESH, c) == Claimed;
    assert t.state.value.value == Bits(true, true);
  }

  // ------------------------------------------------------------- markRead

  /** What markRead does from every state when nobody disturbs it: the mail is marked read
      and the claimed bit is as it was. */
  lemma ReadAlone(w: World, id: nat, m: nat)
    requires id !in w.drivers && m >= 2
    ensures var t := Alone(Step(w, StartRead(id)), id, m);
      && At(t, id, Driver(0, false, Over(Read)))
      && t.state.Some? && t.state.value.value == Bits(true, IsClaimed(w))
      && t == w.(state := t.state, drivers := t.drivers)
  {
    hide Alone;
    var s := SetDriver(w, id, Driver(0, false, ReadGet(0)));
    assert Step(w, StartRead(id)) == s;
    var u, l := ReadFrom(s, id);
    AloneOn(s, id, l, m - l);
    AloneRests(u, id, m - l);
  }

  lemma ReadFrom(s: World, id: nat) returns (u: World, l: nat)
    requires At(s, id, Driver(0, false, ReadGet(0)))
    ensures l <= 2 && Came(s, u, id, l) && At(u, id, Driver(0, false, Over(Read)))
    ensures u.state.Some? && u.state.value.value == Bits(true, IsClaimed(s)) && u == s.(state := u.state, drivers := s.drivers[id := Driver(0, false, Over(Read))])
  {
    Begins(s, id);
    hide Came, Alone;
    var d := Driver(0, false, ReadGet(0));
    if s.state.None? {
      u := GoesTo(s, s, id, 0, d, s, NotFound);
      u := GoesTo(s, u, id, 1, Driver(0, false, ReadInsert(0)), u.(state := Some(Row(Bits(true, false), 1))), Done);
      l := 2;
    } else {
      var bits := s.state.value;
      u := GoesTo(s, s, id, 0, d, s, State(bits.value, bits.version));
      l := 1;
      if !bits.value.read {
        u := GoesTo(s, u, id, 1, Driver(0, false, ReadUpdate(0, bits)),
                    u.(state := Some(Row(bits.value.(read := true), bits.version + 1))), Done);
        l := 2;
      }
    }
  }
}
