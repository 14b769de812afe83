/** What becomes of the visitor's reservation: who holds one when an interaction is over,
    and the two ways in which an aborted one comes to. */
module InteractionHolds {
  import opened Common
  import opened Bytes
  import opened RequestDigest
  import opened InteractionSaga
  import opened InteractionTheorems

  predicate Holds(w: World) { w.hold.Some? && w.hold.value.state == Reserved }

  /** The event is a call of a driver at this point of the loop, and it takes effect. */
  predicate Calls(w: World, e: Event, at: At) {
    e.Act? && e.id in w.drivers && w.drivers[e.id].run.Advancing? && w.drivers[e.id].run.at == at
  }

  /** The reservation is made; released; consumed. */
  predicate Makes(w: World, e: Event) {
    Calls(w, e, Reserving) && !e.fault.Refuse? && w.hold.None? && e.pick.yes
  }

  predicate Freed(w: World, e: Event) {
    Calls(w, e, Freeing) && !e.fault.Refuse? && w.hold.Some? && Frees(w.hold.value, w.drivers[e.id].request)
  }

  predicate Used(w: World, e: Event) {
    Calls(w, e, Committing) && !e.fault.Refuse? && w.committed.None? && e.pick.yes
    && Holds(w) && IsFor(w.hold.value, w.drivers[e.id].request)
  }

  // ------------------------------------------------------------- histories of a run

  ghost predicate EverMade(es: seq<Event>) {
    es != [] && (EverMade(es[..|es| - 1]) || Makes(RunAll(FRESH, es[..|es| - 1]), es[|es| - 1]))
  }

  ghost predicate EverFreed(es: seq<Event>) {
    es != [] && (EverFreed(es[..|es| - 1]) || Freed(RunAll(FRESH, es[..|es| - 1]), es[|es| - 1]))
  }

  ghost predicate EverUsed(es: seq<Event>) {
    es != [] && (EverUsed(es[..|es| - 1]) || Used(RunAll(FRESH, es[..|es| - 1]), es[|es| - 1]))
  }

  lemma HoldStep(w: World, e: Event)
    requires Inv(w)
    ensures var t := Step(w, e);
      && (t.hold.Some? <==> w.hold.Some? || Makes(w, e))
      && (t.hold.Some? && t.hold.value.state == Released <==>
            Freed(w, e) || (w.hold.Some? && w.hold.value.state == Released))
      && (t.hold.Some? && t.hold.value.state == Consumed <==>
            Used(w, e) || (w.hold.Some? && w.hold.value.state == Consumed))
  {
    hide DriverOK, Valid, Preimage, Feed;
  }

  /** The visitor holds a reservation exactly when one was made and neither a release nor
      a commit has landed since: it is made once and never again. */
  lemma {:induction false} HeldIff(es: seq<Event>)
    ensures var w := RunAll(FRESH, es);
      && (Holds(w) <==> EverMade(es) && !EverFreed(es) && !EverUsed(es))
      && (w.hold.Some? <==> EverMade(es))
      && (w.hold.Some? && w.hold.value.state == Released <==> EverFreed(es))
      && (w.hold.Some? && w.hold.value.state == Consumed <==> EverUsed(es))
  {
    hide Inv, Step, Makes, Freed, Used;
    if es != [] {
      HeldIff(es[..|es| - 1]);
      RunKeeps(es[..|es| - 1]);
      HoldStep(RunAll(FRESH, es[..|es| - 1]), es[|es| - 1]);
    }
  }

  /** An interaction that went past INIT and did not turn back has its reservation until
      the visitor commits, and the commit consumes it. */
  lemma ForwardHolds(es: seq<Event>)
    requires var w := RunAll(FRESH, es); w.record.Some? && Reached(w.record.value.value.status, VisitorReserved)
    ensures var w := RunAll(FRESH, es);
      w.hold.Some? && w.hold.value.state == (if w.committed.Some? then Consumed else Reserved)
  {
    hide DriverOK;
    RunKeeps(es);
  }

  // ------------------------------------------------------------- aborted interactions

  /** A release call leaves the reservation held: it fails, and the error is dropped, or
      it names another action. */
  predicate ReleaseFails(w: World, e: Event) {
    Calls(w, e, Freeing) && Holds(w) && !Freed(w, e)
  }

  /** A driver that loaded the record at INIT makes the reservation after the record
      went back. */
  predicate ReservesLate(w: World, e: Event) {
    Makes(w, e) && w.record.Some? && Back(w.record.value.value.status)
  }

  ghost predicate EverFailed(es: seq<Event>) {
    es != [] && (EverFailed(es[..|es| - 1]) || ReleaseFails(RunAll(FRESH, es[..|es| - 1]), es[|es| - 1]))
  }

  ghost predicate EverLate(es: seq<Event>) {
    es != [] && (EverLate(es[..|es| - 1]) || ReservesLate(RunAll(FRESH, es[..|es| - 1]), es[|es| - 1]))
  }

  /** Nothing is held, or one of the two reasons for it has occurred. */
  ghost predicate Excused(es: seq<Event>) {
    Holds(RunAll(FRESH, es)) ==> EverFailed(es) || EverLate(es)
  }

  predicate WritesAborted(d: Driver) {
    d.run.Advancing? && d.run.at.Writing? && d.run.at.next.status == Aborted
  }

  /** Some driver has released, or the record says so. */
  predicate Over(w: World) {
    (w.record.Some? && w.record.value.value.status == Aborted) || exists i :: i in w.drivers && WritesAborted(w.drivers[i])
  }

  predicate WentBack(w: World) { w.record.Some? && Back(w.record.value.value.status) }

  /** Only a release call leads to ABORTED, and only behind a record that went back. */
  lemma OverArises(w: World, e: Event)
    requires Inv(w) && !Over(w) && Over(Step(w, e))
    ensures Calls(w, e, Freeing) && WentBack(w)
  {
    hide Valid, Preimage, Facts, Matches, Apply;
    if e.Act? && e.id in w.drivers {
      assert DriverOK(w, w.drivers[e.id]);
      UpdatesOnly(w, e);
      assert forall i :: i in w.drivers && i != e.id ==> Step(w, e).drivers[i] == w.drivers[i];
    }
  }

  lemma UpdatesOnly(w: World, e: Event)
    requires e.Act? && e.id in w.drivers && !WritesAborted(w.drivers[e.id])
    requires !(w.record.Some? && w.record.value.value.status == Aborted)
    ensures !(Step(w, e).record.Some? && Step(w, e).record.value.value.status == Aborted)
  {
    hide Feed;
  }

  lemma WentBackStays(w: World, e: Event)
    requires Inv(w) && WentBack(w)
    ensures WentBack(Step(w, e))
  {
    hide Inv, Step;
    StepKeeps(w, e);
  }

  lemma {:induction false} OverIsExcused(es: seq<Event>)
    requires Over(RunAll(FRESH, es))
    ensures WentBack(RunAll(FRESH, es)) && Excused(es)
  {
    hide Inv, Step, Over, Calls, WentBack;
    if es == [] {
      FreshIsNotOver();
    } else {
      var (front, e) := (es[..|es| - 1], es[|es| - 1]);
      var w := RunAll(FRESH, front);
      RunKeeps(front);
      HoldStep(w, e);
      if Over(w) {
        OverIsExcused(front);
        if Makes(w, e) { LateOnes(w, e); }
      } else {
        OverArises(w, e);
        if Makes(w, e) { LateOnes(w, e); }
      }
      WentBackStays(w, e);
    }
  }

  lemma LateOnes(w: World, e: Event)
    requires Makes(w, e) && WentBack(w)
    ensures ReservesLate(w, e)
  {}

  lemma FreshIsNotOver()
    ensures !Over(FRESH)
  {}

  /** An ABORTED interaction holds a reservation exactly when one was made and no release
      of it landed; and then a release call failed, or a driver that had loaded the
      record at INIT made the first reservation after the record went back. */
  lemma AbortedHolds(es: seq<Event>)
    requires var w := RunAll(FRESH, es); w.record.Some? && w.record.value.value.status == Aborted
    ensures Holds(RunAll(FRESH, es)) <==> EverMade(es) && !EverFreed(es)
    ensures Holds(RunAll(FRESH, es)) ==> EverFailed(es) || EverLate(es)
  {
    HeldIff(es);
    RunKeeps(es);
    OverIsExcused(es);
  }

  // ------------------------------------------------------------- both ways occur

  lemma ReasonStays(es: seq<Event>, e: Event)
    ensures EverFailed(es) || ReleaseFails(RunAll(FRESH, es), e) ==> EverFailed(es + [e])
    ensures EverLate(es) || ReservesLate(RunAll(FRESH, es), e) ==> EverLate(es + [e])
  {
    assert (es + [e])[..|es|] == es;
  }

  /** The owner refuses and the release call fails. */
  lemma AbortedAfterFailedRelease() returns (es: seq<Event>)
    ensures var w := RunAll(FRESH, es); w.record.Some? && w.record.value.value.status == Aborted && Holds(w)
    ensures EverFailed(es)
  {
    hide RunAll, Preimage;
    var w;
    w, es := AboutToAsk();
    w, es := More(w, es, Act(1, Fine, NO));
    assert w.drivers[1].run == Advancing(Writing(SENT_BACK, false), RESERVED, 2, 1);
    w, es := More(w, es, Act(1, Fine, NO));
    assert w.drivers[1].run == Advancing(Freeing, SENT_BACK, 3, 2);
    ReasonStays(es, Act(1, Refuse, NO));
    w, es := More(w, es, Act(1, Refuse, NO));
    ReasonStays(es, Act(1, Fine, NO));
    w, es := More(w, es, Act(1, Fine, NO));
  }

  /** Both callers have loaded the record at INIT. */
  lemma BothAtInit() returns (w: World, es: seq<Event>)
    ensures w == RunAll(FRESH, es) && w.drivers.Keys == {1, 2} && w.hold.None? && w.record == Some(Row(NewRecord(SAMPLE), 1))
    ensures w.drivers[1] == Driver(SAMPLE, true, Advancing(Reserving, NewRecord(SAMPLE), 1, 0))
    ensures w.drivers[2] == Driver(SAMPLE, true, Advancing(Reserving, NewRecord(SAMPLE), 1, 0))
  {
    Nothing();
    hide RunAll, Preimage;
    w, es := FRESH, [];
    w, es := More(w, es, Execute(1, SAMPLE));
    w, es := More(w, es, Act(1, Fine, YES));
    assert w.drivers[1].run == EntryInsert;
    w, es := More(w, es, Act(1, Fine, YES));
    w, es := More(w, es, Execute(2, SAMPLE));
    assert w.drivers[2].run == EntryGet;
    w, es := More(w, es, Act(2, Fine, YES));
  }

  /** Caller 1 is refused for want of capacity, releases nothing and aborts; caller 2 then
      makes the first reservation. */
  lemma AbortedAfterLateReserve() returns (es: seq<Event>)
    ensures var w := RunAll(FRESH, es); w.record.Some? && w.record.value.value.status == Aborted && Holds(w)
    ensures EverLate(es)
  {
    hide RunAll, Preimage;
    var w;
    w, es := BothAtInit();
    w, es := More(w, es, Act(1, Fine, NO));
    assert w.drivers[1].run == Advancing(Writing(SENT_BACK, false), NewRecord(SAMPLE), 1, 0);
    w, es := More(w, es, Act(1, Fine, NO));
    assert w.drivers[1].run == Advancing(Freeing, SENT_BACK, 2, 1);
    w, es := More(w, es, Act(1, Fine, NO));
    w, es := More(w, es, Act(1, Fine, NO));
    ReasonStays(es, Act(2, Fine, YES));
    w, es := More(w, es, Act(2, Fine, YES));
  }
}
