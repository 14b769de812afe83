/** What a call does that nobody disturbs: every store call is answered, visitor and owner
    accept what they can, and no other caller moves. From every reachable state the answer
    and the tables are determined. */
module InteractionAlone {
  import opened Common
  import opened Bytes
  import opened RequestDigest
  import opened InteractionSaga
  import opened InteractionTheorems

  /** `n` answered calls of one driver. */
  function Alone(w: World, id: nat, pick: Pick, n: nat): World {
    if n == 0 then w else Step(Alone(w, id, pick, n - 1), Act(id, Fine, pick))
  }

  lemma {:induction false} AloneOn(w: World, id: nat, pick: Pick, m: nat, n: nat)
    ensures Alone(Alone(w, id, pick, m), id, pick, n) == Alone(w, id, pick, m + n)
    decreases n
  {
    hide Step;
    if n > 0 { AloneOn(w, id, pick, m, n - 1); }
  }

  /** A driver that has answered makes no more calls. */
  lemma {:induction false} AloneRests(w: World, id: nat, pick: Pick, n: nat)
    requires id in w.drivers && w.drivers[id].run.Finished?
    ensures Alone(w, id, pick, n) == w
  {
    if n > 0 {
      AloneRests(w, id, pick, n - 1);
      assert w.drivers[id := w.drivers[id]] == w.drivers;
    }
  }

  predicate Yes(pick: Pick) { pick.yes && !pick.reject }

  /** The driver is at the top of the loop with the record as it is. */
  predicate AtTop(w: World, id: nat, q: Request, g: Record, n: nat) {
    && id in w.drivers && w.drivers[id].request == q && w.record.Some? && w.record.value.value == g
    && w.drivers[id].run == Enter(g, w.record.value.version, n) && n <= Rank(g.status)
  }

  /** The visitor can commit for this request. */
  predicate Fits(w: World, q: Request) {
    w.hold.Some? && w.hold.value.state == Reserved && IsFor(w.hold.value, q)
  }

  /** The answer of an undisturbed call, from the tables it finds. */
  function Answer(w: World, q: Request, pick: Pick): Outcome
    requires w.record.Some?
  {
    var g := w.record.value.value;
    match g.status
    case Completed => if g.payload.Final? then Success(g.payload.receipt) else OutcomeUnknown
    case VisitorCommitted => if g.payload.Final? then Success(g.payload.receipt) else OutcomeUnknown
    case Aborted => AbortedWith(g.code)
    case Releasing => AbortedWith(g.code)
    case OwnerApplied =>
      if w.committed.Some? then Success(w.committed.value)
      else if Fits(w, q) && g.payload.Intermediate? then Success(Receipt(pick.number, Some(g.payload.patch)))
      else OutcomeUnknown
    case VisitorReserved =>
      if Fits(w, q) then
        Success(Receipt(pick.number, Some(if w.applied.Some? then w.applied.value.patch else pick.number)))
      else OutcomeUnknown
    case Init =>
      if w.hold.None? || IsFor(w.hold.value, q) then Success(Receipt(pick.number, Some(pick.number)))
      else AbortedWith(Domain(105))
    case Unspecified => OutcomeUnknown
  }

  /** How the tables stand after it. */
  predicate Settled(w: World, t: World, q: Request, o: Outcome) {
    && t.record.Some?
    && (o.Success? ==> t.record.value.value.status == Completed && t.record.value.value.payload == Final(o.receipt)
                       && t.committed == Some(o.receipt))
    && (o.AbortedWith? ==> t.record.value.value.status == Aborted
                           && (w.record.Some? && w.record.value.value.status != Aborted && w.hold.Some?
                               && (q.action == STEAL || q.action == w.hold.value.request.action) ==>
                                 t.hold.Some? && t.hold.value.state != Reserved))
    && (o.OutcomeUnknown? ==> t.record.value.value.status == OwnerApplied && t.record.value.value.code == TransportError)
  }

  /** A world in which driver `id` of `q` has come from `w` in `k` calls. */
  predicate Came(w: World, t: World, id: nat, pick: Pick, k: nat) { t == Alone(w, id, pick, k) }

  lemma One(w: World, t: World, id: nat, pick: Pick, k: nat)
    requires Came(w, t, id, pick, k)
    ensures Came(w, Step(t, Act(id, Fine, pick)), id, pick, k + 1)
  {
    hide Step;
  }

  /** A status is persisted. */
  lemma Persisted(w: World, t: World, id: nat, pick: Pick, k: nat, q: Request, g: Record, v: nat, n: nat, next: Record)
    returns (u: World)
    requires Came(w, t, id, pick, k) && id in t.drivers && t.drivers[id].request == q
    requires t.record == Some(Row(g, v)) && t.drivers[id].run == Persist(g, v, n, next)
    requires n < Rank(next.status)
    ensures Came(w, u, id, pick, k + 1) && AtTop(u, id, q, next, n + 1)
    ensures u == t.(record := Some(Row(next, v + 1)), drivers := u.drivers)
  {
    hide Enter;
    u := Step(t, Act(id, Fine, pick));
    One(w, t, id, pick, k);
  }

  lemma FromVisitorCommitted(w: World, t: World, id: nat, pick: Pick, k: nat, q: Request, g: Record, n: nat)
    returns (u: World)
    requires Came(w, t, id, pick, k) && AtTop(t, id, q, g, n) && g.status == VisitorCommitted && g.payload.Final?
    ensures Came(w, u, id, pick, k + 1) && id in u.drivers && u.drivers[id].run == Finished(Success(g.payload.receipt))
    ensures u.record.Some? && u.record.value.value == g.(status := Completed)
    ensures u == t.(record := u.record, drivers := u.drivers)
  {
    u := Persisted(w, t, id, pick, k, q, g, t.record.value.version, n, g.(status := Completed));
  }

  lemma FromOwnerApplied(w: World, t: World, id: nat, pick: Pick, k: nat, q: Request, g: Record, n: nat)
    returns (u: World, receipt: Receipt)
    requires Came(w, t, id, pick, k) && AtTop(t, id, q, g, n) && g.status == OwnerApplied && pick.yes
    requires t.committed.Some? || Fits(t, q)
    ensures Came(w, u, id, pick, k + 3) && id in u.drivers && u.drivers[id].run == Finished(Success(receipt))
    ensures u.record.Some? && u.record.value.value == g.(status := Completed, payload := Final(receipt))
    ensures u.committed == Some(receipt) && u.hold.Some? == t.hold.Some?
    ensures receipt == if t.committed.Some? then t.committed.value
                       else Receipt(pick.number, if g.payload.Intermediate? then Some(g.payload.patch) else None)
  {
    var v := t.record.value.version;
    receipt := if t.committed.Some? then t.committed.value
               else Receipt(pick.number, if g.payload.Intermediate? then Some(g.payload.patch) else None);
    var next := g.(status := VisitorCommitted, payload := Final(receipt));
    u := Step(t, Act(id, Fine, pick));
    One(w, t, id, pick, k);
    assert u.drivers[id].run == Persist(g, v, n, next);
    u := Persisted(w, u, id, pick, k + 1, q, g, v, n, next);
    u := FromVisitorCommitted(w, u, id, pick, k + 2, q, next, n + 1);
  }

  /** Without a reservation that fits the commit fails, for good. */
  lemma StuckAtOwnerApplied(w: World, t: World, id: nat, pick: Pick, k: nat, q: Request, g: Record, n: nat)
    returns (u: World)
    requires Came(w, t, id, pick, k) && AtTop(t, id, q, g, n) && g.status == OwnerApplied
    requires t.committed.None? && !Fits(t, q)
    ensures Came(w, u, id, pick, k + 2) && id in u.drivers && u.drivers[id].run == Finished(OutcomeUnknown)
    ensures u.record.Some? && u.record.value.value == g.(code := TransportError)
    ensures u == t.(record := u.record, drivers := u.drivers)
  {
    u := Step(t, Act(id, Fine, pick));
    One(w, t, id, pick, k);
    assert u.drivers[id].run == Defer(g, t.record.value.version, n);
    One(w, u, id, pick, k + 1);
    u := Step(u, Act(id, Fine, pick));
  }

  lemma FromVisitorReserved(w: World, t: World, id: nat, pick: Pick, k: nat, q: Request, g: Record, n: nat)
    returns (u: World)
    requires Came(w, t, id, pick, k) && AtTop(t, id, q, g, n) && g.status == VisitorReserved && Yes(pick)
    ensures Came(w, u, id, pick, k + 2) && u.applied.Some?
    ensures var patch := if t.applied.Some? then t.applied.value.patch else pick.number;
      AtTop(u, id, q, g.(status := OwnerApplied, payload := Intermediate(patch)), n + 1)
      && u.applied == (if t.applied.Some? then t.applied else Some(Application(q, patch)))
    ensures u.hold == t.hold && u.committed == t.committed
  {
    var v := t.record.value.version;
    var patch := if t.applied.Some? then t.applied.value.patch else pick.number;
    u := Step(t, Act(id, Fine, pick));
    One(w, t, id, pick, k);
    var next := g.(status := OwnerApplied, payload := Intermediate(patch));
    assert u.drivers[id].run == Persist(g, v, n, next);
    u := Persisted(w, u, id, pick, k + 1, q, g, v, n, next);
  }

  lemma FromInit(w: World, t: World, id: nat, pick: Pick, k: nat, q: Request, g: Record, n: nat)
    returns (u: World)
    requires Came(w, t, id, pick, k) && AtTop(t, id, q, g, n) && g.status == Init && Yes(pick)
    requires t.hold.Some? ==> IsFor(t.hold.value, q)
    ensures Came(w, u, id, pick, k + 2) && AtTop(u, id, q, g.(status := VisitorReserved), n + 1)
    ensures u.hold == (if t.hold.Some? then t.hold else Some(HoldFor(q)))
    ensures u.applied == t.applied && u.committed == t.committed
  {
    var v := t.record.value.version;
    u := Step(t, Act(id, Fine, pick));
    One(w, t, id, pick, k);
    assert u.drivers[id].run == Persist(g, v, n, g.(status := VisitorReserved));
    u := Persisted(w, u, id, pick, k + 1, q, g, v, n, g.(status := VisitorReserved));
  }

  lemma FromReleasing(w: World, t: World, id: nat, pick: Pick, k: nat, q: Request, g: Record, n: nat)
    returns (u: World)
    requires Came(w, t, id, pick, k) && AtTop(t, id, q, g, n) && g.status == Releasing
    ensures Came(w, u, id, pick, k + 2) && id in u.drivers && u.drivers[id].run == Finished(AbortedWith(g.code))
    ensures u.record.Some? && u.record.value.value == g.(status := Aborted)
    ensures t.hold.Some? ==> u.hold.Some? && (Frees(t.hold.value, q) || t.hold.value.state != Reserved ==> u.hold.value.state != Reserved)
    ensures t.hold.None? ==> u.hold.None?
  {
    var v := t.record.value.version;
    u := Step(t, Act(id, Fine, pick));
    One(w, t, id, pick, k);
    assert u.drivers[id].run == Persist(g, v, n, g.(status := Aborted));
    u := Persisted(w, u, id, pick, k + 1, q, g, v, n, g.(status := Aborted));
  }

  /** A reservation made with other fields refuses this request. */
  lemma ConflictAtInit(w: World, t: World, id: nat, pick: Pick, k: nat, q: Request, g: Record, n: nat)
    returns (u: World)
    requires Came(w, t, id, pick, k) && AtTop(t, id, q, g, n) && g.status == Init
    requires t.hold.Some? && !IsFor(t.hold.value, q)
    ensures Came(w, u, id, pick, k + 4) && id in u.drivers
    ensures u.drivers[id].run == Finished(AbortedWith(Domain(REQUEST_ID_CONFLICT)))
    ensures u.record.Some? && u.record.value.value == g.(status := Aborted, code := Domain(REQUEST_ID_CONFLICT))
    ensures u.hold.Some? && (Frees(t.hold.value, q) || t.hold.value.state != Reserved ==> u.hold.value.state != Reserved)
  {
    var back := g.(status := Releasing, code := Domain(REQUEST_ID_CONFLICT));
    u := TurnsBack(w, t, id, pick, k, q, g, n);
    u := FromReleasing(w, u, id, pick, k + 2, q, back, n + 1);
  }

  lemma TurnsBack(w: World, t: World, id: nat, pick: Pick, k: nat, q: Request, g: Record, n: nat)
    returns (u: World)
    requires Came(w, t, id, pick, k) && AtTop(t, id, q, g, n) && g.status == Init
    requires t.hold.Some? && !IsFor(t.hold.value, q)
    ensures Came(w, u, id, pick, k + 2) && u.hold == t.hold
    ensures AtTop(u, id, q, g.(status := Releasing, code := Domain(REQUEST_ID_CONFLICT)), n + 1)
  {
    var v := t.record.value.version;
    var back := g.(status := Releasing, code := Domain(REQUEST_ID_CONFLICT));
    u := Step(t, Act(id, Fine, pick));
    One(w, t, id, pick, k);
    assert u.drivers[id].run == Persist(g, v, n, back);
    u := Persisted(w, u, id, pick, k + 1, q, g, v, n, back);
  }

  /** From the top of the loop with any status a reachable record has. */
  lemma FromTop(w: World, t: World, id: nat, pick: Pick, k: nat, q: Request, n: nat) returns (u: World, l: nat)
    requires Came(w, t, id, pick, k) && t.record.Some? && AtTop(t, id, q, t.record.value.value, n) && Yes(pick)
    requires Facts(t, t.record.value.value) && HoldOK(t)
    ensures k <= l <= k + 7 && Came(w, u, id, pick, l) && id in u.drivers
    ensures u.drivers[id].run == Finished(Answer(t, q, pick)) && Settled(t, u, q, Answer(t, q, pick))
  {
    hide Valid, Preimage, Step, Alone, Came;
    var g := t.record.value.value;
    match g.status {
      case Completed => u, l := t, k;
      case Aborted => u, l := t, k;
      case Releasing => u := FromReleasing(w, t, id, pick, k, q, g, n); l := k + 2;
      case VisitorCommitted => u := FromVisitorCommitted(w, t, id, pick, k, q, g, n); l := k + 1;
      case OwnerApplied => u, l := OwnerAppliedAlone(w, t, id, pick, k, q, g, n);
      case VisitorReserved => u, l := VisitorReservedAlone(w, t, id, pick, k, q, g, n);
      case Init =>
        if t.hold.Some? && !IsFor(t.hold.value, q) {
          u := ConflictAtInit(w, t, id, pick, k, q, g, n);
          l := k + 4;
        } else {
          var a := FromInit(w, t, id, pick, k, q, g, n);
          assert Fits(a, q);
          u, l := VisitorReservedAlone(w, a, id, pick, k + 2, q, g.(status := VisitorReserved), n + 1);
        }
    }
  }

  lemma OwnerAppliedAlone(w: World, t: World, id: nat, pick: Pick, k: nat, q: Request, g: Record, n: nat)
    returns (u: World, l: nat)
    requires Came(w, t, id, pick, k) && AtTop(t, id, q, g, n) && g.status == OwnerApplied && g.payload.Intermediate? && Yes(pick)
    ensures k <= l <= k + 3 && Came(w, u, id, pick, l) && id in u.drivers
    ensures u.drivers[id].run == Finished(Answer(t, q, pick)) && Settled(t, u, q, Answer(t, q, pick))
  {
    hide Valid, Preimage, Step, Alone, Came;
    if t.committed.Some? || Fits(t, q) {
      var receipt;
      u, receipt := FromOwnerApplied(w, t, id, pick, k, q, g, n);
      l := k + 3;
    } else {
      u := StuckAtOwnerApplied(w, t, id, pick, k, q, g, n);
      l := k + 2;
    }
  }

  lemma VisitorReservedAlone(w: World, t: World, id: nat, pick: Pick, k: nat, q: Request, g: Record, n: nat)
    returns (u: World, l: nat)
    requires Came(w, t, id, pick, k) && AtTop(t, id, q, g, n) && g.status == VisitorReserved && Yes(pick)
    requires t.committed.None?
    ensures k <= l <= k + 5 && Came(w, u, id, pick, l) && id in u.drivers
    ensures u.drivers[id].run == Finished(Answer(t, q, pick)) && Settled(t, u, q, Answer(t, q, pick))
  {
    hide Valid, Preimage, Step, Alone, Came;
    var a := FromVisitorReserved(w, t, id, pick, k, q, g, n);
    u, l := OwnerAppliedAlone(w, a, id, pick, k + 2, q, a.record.value.value, n + 1);
  }

  /** The answer of an undisturbed Execute that passes the digest check. */
  function ExecuteAnswer(w: World, q: Request, pick: Pick): Outcome {
    if w.record.None? then Success(Receipt(pick.number, Some(pick.number))) else Answer(w, q, pick)
  }

  /** An Execute on a fresh interaction. */
  lemma CreateAlone(s: World, id: nat, q: Request, pick: Pick) returns (t: World)
    requires id in s.drivers && s.drivers[id] == Driver(q, true, EntryGet) && s.record.None?
    ensures Came(s, t, id, pick, 2) && AtTop(t, id, q, NewRecord(q), 0)
    ensures t == s.(record := Some(Row(NewRecord(q), 1)), drivers := t.drivers)
  {
    hide Preimage;
    One(s, s, id, pick, 0);
    t := Step(s, Act(id, Fine, pick));
    assert t.drivers[id].run == EntryInsert;
    One(s, t, id, pick, 1);
    t := Step(t, Act(id, Fine, pick));
  }

  lemma LoadAlone(s: World, id: nat, q: Request, pick: Pick) returns (t: World)
    requires id in s.drivers && s.drivers[id] == Driver(q, true, EntryGet) && s.record.Some?
    ensures Came(s, t, id, pick, 1) && id in t.drivers && t == s.(drivers := t.drivers) && t.drivers[id].request == q
    ensures t.drivers[id].run == Admit(q, s.record.value.value, s.record.value.version)
  {
    hide Preimage, Enter;
    One(s, s, id, pick, 0);
    t := Step(s, Act(id, Fine, pick));
  }

  /** What Execute does from every reachable state when nobody disturbs it. With no record
      yet the owner applies this request once, the visitor commits once and the caller
      gets the response. A record of another request is a digest conflict. Any other
      record is brought to its end, and the answer is the one of the tables. */
  lemma ExecuteAlone(es: seq<Event>, id: nat, q: Request, pick: Pick, m: nat)
    requires id !in RunAll(FRESH, es).drivers && Valid(q) && Yes(pick) && m >= 9
    ensures var w := RunAll(FRESH, es);
      var t := Alone(Step(w, Execute(id, q)), id, pick, m);
      && id in t.drivers
      && if w.record.Some? && !SameIdentity(q, w.record.value.value.request) then
           t.drivers[id].run == Finished(Error(DigestConflict)) && t == w.(drivers := t.drivers)
         else
           t.drivers[id].run == Finished(ExecuteAnswer(w, q, pick)) && Settled(w, t, q, ExecuteAnswer(w, q, pick))
  {
    hide Valid, Preimage, SameIdentity, Settled, Answer, Inv, ExecuteAnswer, Alone;
    RunKeeps(es);
    var w := RunAll(FRESH, es);
    hide RunAll;
    var s := Step(w, Execute(id, q));
    assert s == w.(drivers := w.drivers[id := Driver(q, true, EntryGet)]);
    hide Step;
    var u, l := s, 0;
    if w.record.None? { u, l := NewAlone(w, s, id, q, pick); } else { u, l := LoadedAlone(w, s, id, q, pick); }
    AloneOn(s, id, pick, l, m - l);
    AloneRests(u, id, pick, m - l);
  }

  lemma NewAlone(w: World, s: World, id: nat, q: Request, pick: Pick) returns (u: World, l: nat)
    requires Inv(w) && w.record.None? && Yes(pick) && s == w.(drivers := w.drivers[id := Driver(q, true, EntryGet)])
    ensures l <= 9 && Came(s, u, id, pick, l) && id in u.drivers
    ensures u.drivers[id].run == Finished(ExecuteAnswer(w, q, pick)) && Settled(w, u, q, ExecuteAnswer(w, q, pick))
  {
    hide Inv, Settled, Answer, Alone, Came;
    var t := CreateAlone(s, id, q, pick);
    NewFacts(w, t, q);
    u, l := FromTop(s, t, id, pick, 2, q, 0);
    NewAnswer(w, t, u, q, pick);
  }

  lemma LoadedAlone(w: World, s: World, id: nat, q: Request, pick: Pick) returns (u: World, l: nat)
    requires Inv(w) && w.record.Some? && Yes(pick) && Valid(q) && s == w.(drivers := w.drivers[id := Driver(q, true, EntryGet)])
    ensures l <= 9 && Came(s, u, id, pick, l) && id in u.drivers
    ensures if SameIdentity(q, w.record.value.value.request) then
        u.drivers[id].run == Finished(ExecuteAnswer(w, q, pick)) && Settled(w, u, q, ExecuteAnswer(w, q, pick))
      else u.drivers[id].run == Finished(Error(DigestConflict)) && u == w.(drivers := u.drivers)
  {
    hide Settled, Answer, Alone, Came, Preimage, Valid, SameIdentity, Facts, DriverOK;
    PreimageDetermines(q, w.record.value.value.request);
    var t := LoadAlone(s, id, q, pick);
    if SameIdentity(q, w.record.value.value.request) {
      SameWorld(w, t, id, q);
      u, l := FromTop(s, t, id, pick, 1, q, 0);
      SameAnswer(w, t, u, q, pick);
    } else {
      u, l := t, 1;
    }
  }

  lemma NewFacts(w: World, t: World, q: Request)
    requires Inv(w) && w.record.None? && t.record.Some? && t.record.value.value == NewRecord(q)
    requires t == w.(record := t.record, drivers := t.drivers)
    ensures Facts(t, t.record.value.value) && HoldOK(t)
  {}

  lemma NewAnswer(w: World, t: World, u: World, q: Request, pick: Pick)
    requires Inv(w) && w.record.None? && t.record.Some? && t.record.value.value == NewRecord(q)
    requires t == w.(record := t.record, drivers := t.drivers)
    requires Settled(t, u, q, Answer(t, q, pick))
    ensures Answer(t, q, pick) == ExecuteAnswer(w, q, pick) && Settled(w, u, q, ExecuteAnswer(w, q, pick))
  {}

  lemma SameWorld(w: World, t: World, id: nat, q: Request)
    requires Inv(w) && w.record.Some? && t == w.(drivers := t.drivers) && id in t.drivers && t.drivers[id].request == q
    requires t.drivers[id].run == Enter(w.record.value.value, w.record.value.version, 0)
    ensures Facts(t, t.record.value.value) && HoldOK(t) && AtTop(t, id, q, t.record.value.value, 0)
  {}

  lemma SameAnswer(w: World, t: World, u: World, q: Request, pick: Pick)
    requires t == w.(drivers := t.drivers) && t.record.Some? && Settled(t, u, q, Answer(t, q, pick))
    ensures Answer(t, q, pick) == Answer(w, q, pick) && Settled(w, u, q, Answer(w, q, pick))
  {}
}
