/** Why every run of the interaction saga is atomic across owner and visitor. */
module InteractionTheorems {
  import opened Common
  import opened RequestDigest
  import opened InteractionSaga

  // ------------------------------------------------------ stability under steps

  lemma AtLater(w: World, t: World, g: Record, v: nat, at: At)
    requires Inv(w) && Later(w, t) && Lineage(w, g, v) && Owned(w, g) && AtOK(w, g, v, at) && SentBack(w, g)
    requires NewlyBack(w, t)
    ensures Lineage(t, g, v) && Owned(t, g) && AtOK(t, g, v, at) && SentBack(t, g)
  {
    if at.Writing? && t.record.value.version == v {
      assert t.record.value == w.record.value && w.record.value.value == g;
      FactsLater(w, t, at.next, g);
    }
  }

  /** A record that a step sends back from VISITOR_RESERVED had the owner's refusal. */
  predicate NewlyBack(w: World, t: World) {
    if w.record.Some? && t.record.Some? && w.record.value.value.status == VisitorReserved then
      Back(t.record.value.value.status) ==> t.refusals > 0
    else true
  }

  /** Facts about the next record survive steps that leave the record alone. */
  lemma FactsLater(w: World, t: World, next: Record, g: Record)
    requires Later(w, t) && w.record.Some? && t.record == w.record && g == w.record.value.value
    requires Facts(w, next) && Facts(w, g) && Path(g.status, next.status)
    requires g.status == VisitorReserved && Back(next.status) ==> w.refusals > 0
    ensures Facts(t, next)
  {}

  lemma DriverLater(w: World, t: World, d: Driver)
    requires Inv(w) && Later(w, t) && NewlyBack(w, t) && DriverOK(w, d)
    ensures DriverOK(t, d)
  {
    if d.run.Advancing? {
      AtLater(w, t, d.run.record, d.run.version, d.run.at);
    }
  }

  // ------------------------------------------------------------------- steps

  /** The world after a call, before the caller learns the reply. */
  predicate Good(w: World, t: World) {
    && Later(w, t) && NewlyBack(w, t) && t.drivers == w.drivers && HoldOK(t)
    && (t.record.Some? ==> Facts(t, t.record.value.value) && Valid(t.record.value.value.request))
    && (t.record.None? ==> Untouched(t) && t.committed.None?)
    && (t.committed.Some? ==> t.applied.Some? && t.committed.value.patch == Some(t.applied.value.patch))
    && t.applies == (if t.applied.Some? then 1 else 0)
    && t.commits == (if t.committed.Some? then 1 else 0)
  }

  lemma UpdateIsGood(w: World, g: Record, v: nat, next: Record, retry: bool)
    requires Inv(w) && Lineage(w, g, v) && AtOK(w, g, v, Writing(next, retry)) && w.record.value.version == v
    ensures Good(w, w.(record := Some(Row(next, v + 1))))
  {
    hide Valid;
  }

  lemma AskIsGood(w: World, g: Record, v: nat, r: Request, pick: Pick)
    requires Inv(w) && Lineage(w, g, v) && g.status == VisitorReserved && SentBack(w, g)
    ensures Good(w, AskOwnerOf(w, r, pick).0)
  {
    hide Valid, DriverOK;
  }

  lemma CommitIsGood(w: World, g: Record, v: nat, r: Request, pick: Pick)
    requires Inv(w) && Lineage(w, g, v) && g.status == OwnerApplied && Owned(w, g)
    ensures Good(w, CommitOf(w, r, g.payload, pick).0)
  {
    hide Valid, DriverOK, IsFor;
  }

  lemma ReserveIsGood(w: World, r: Request, pick: Pick)
    requires Inv(w) && w.record.Some?
    ensures Good(w, ReserveOf(w, r, pick).0)
  {
    hide Valid, DriverOK, IsFor;
  }

  lemma ReleaseIsGood(w: World, g: Record, v: nat, r: Request)
    requires Inv(w) && Lineage(w, g, v) && g.status == Releasing
    ensures Good(w, ReleaseOf(w, r).0)
  {
    hide Valid, DriverOK;
  }

  lemma NoChangeIsGood(w: World)
    requires Inv(w)
    ensures Good(w, w)
  {
    hide Valid, DriverOK;
  }

  lemma InsertIsGood(w: World, r: Request)
    requires Inv(w) && w.record.None? && Valid(r)
    ensures Good(w, w.(record := Some(Row(NewRecord(r), 1))))
  {
    hide DriverOK;
  }

  lemma CallIsGood(w: World, d: Driver, pick: Pick)
    requires Inv(w) && DriverOK(w, d)
    ensures Good(w, Apply(w, CallOf(d), pick).0)
  {
    hide Inv, Good, Valid, Preimage, Facts, Owned, ReserveOf, CommitOf, ReleaseOf;
    NoChangeIsGood(w);
    match d.run {
      case EntryInsert => if w.record.None? { InsertIsGood(w, d.request); }
      case Advancing(at, g, v, _) =>
        match at {
          case Asking => AskIsGood(w, g, v, d.request, pick);
          case Reserving => ReserveIsGood(w, d.request, pick);
          case Committing => CommitIsGood(w, g, v, d.request, pick);
          case Freeing => ReleaseIsGood(w, g, v, d.request);
          case Writing(next, retry) => if w.record.value.version == v { UpdateIsGood(w, g, v, next, retry); }
        }
      case _ =>
    }
  }

  /** What a reply tells about the world it came from. */
  predicate Truth(t: World, c: Call, r: Reply) {
    match c
    case Get => r.Found? ==> t.record == Some(Row(r.record, r.version))
    case Insert(g) => r.Done? ==> t.record == Some(Row(g, r.version))
    case Update(g, v) => r.Done? ==> t.record == Some(Row(g, r.version))
    case Reserve(_) => (r.Done? ==> t.hold.Some?) && (r.Rejected? ==> r.code in t.codes)
    case AskOwner(_) =>
      && (r.Applied? ==> t.applied.Some? && t.applied.value.patch == r.patch)
      && (r.Rejected? ==> t.refusals > 0 && r.code in t.codes)
    case Commit(_, _) => r.Response? ==> t.committed == Some(r.receipt)
    case _ => true
  }

  lemma ReplyIsTrue(w: World, c: Call, fault: Fault, pick: Pick)
    ensures Truth(Perform(w, c, fault, pick).0, c, Perform(w, c, fault, pick).1)
  {}

  /** Good apart from the drivers. */
  predicate Core(t: World) {
    && (t.record.Some? ==> Facts(t, t.record.value.value) && Valid(t.record.value.value.request))
    && (t.record.None? ==> Untouched(t) && t.committed.None?)
  }

  lemma EnterOK(t: World, d: Driver, g: Record, v: nat, n: nat)
    requires Core(t) && t.record == Some(Row(g, v))
    requires d.checked ==> Valid(d.request) && Preimage(d.request) == Preimage(g.request)
    ensures DriverOK(t, d.(run := Enter(g, v, n)))
  {
    hide Valid, Preimage;
  }

  lemma WriteOK(t: World, d: Driver, g: Record, v: nat, n: nat, next: Record, retry: bool)
    requires Core(t) && DriverOK(t, d) && d.run.Advancing? && d.run.record == g && d.run.version == v
    requires next.request == g.request && Path(g.status, next.status) && next.status != Unspecified
    requires Back(g.status) ==> next.code == g.code
    requires retry ==> next == g.(code := TransportError)
    requires Owned(t, next)
    requires t.record.value.version == v ==> Facts(t, next)
    requires g.status == VisitorReserved && Back(next.status) ==> t.refusals > 0
    ensures DriverOK(t, d.(run := Advancing(Writing(next, retry), g, v, n)))
  {
    hide Valid, Preimage;
  }

  lemma FeedAdvanceOK(t: World, d: Driver, r: Reply)
    requires Core(t) && DriverOK(t, d) && d.run.Advancing? && Truth(t, CallOf(d), r)
    ensures DriverOK(t, Feed(d, r))
  {
    hide Valid, Preimage;
    var (at, g, v, n) := (d.run.at, d.run.record, d.run.version, d.run.steps);
    var now := t.record.value.value;
    match at
    case Reserving =>
      if r.Done? { WriteOK(t, d, g, v, n, g.(status := VisitorReserved), false); }
      WriteOK(t, d, g, v, n, g.(code := TransportError), true);
      if r.Rejected? { WriteOK(t, d, g, v, n, g.(status := Releasing, code := Domain(r.code)), false); }
    case Asking =>
      WriteOK(t, d, g, v, n, g.(code := TransportError), true);
      if r.Applied? { WriteOK(t, d, g, v, n, g.(status := OwnerApplied, payload := Intermediate(r.patch)), false); }
      if r.Rejected? { WriteOK(t, d, g, v, n, g.(status := Releasing, code := Domain(r.code)), false); }
    case Committing =>
      WriteOK(t, d, g, v, n, g.(code := TransportError), true);
      if r.Response? { WriteOK(t, d, g, v, n, g.(status := VisitorCommitted, payload := Final(r.receipt)), false); }
    case Freeing => WriteOK(t, d, g, v, n, g.(status := Aborted), false);
    case Writing(next, retry) =>
      if r.Done? && !retry { EnterOK(t, d, next, r.version, n + 1); }
  }

  lemma FeedOK(t: World, d: Driver, r: Reply)
    requires Core(t) && DriverOK(t, d) && Truth(t, CallOf(d), r)
    ensures DriverOK(t, Feed(d, r))
  {
    hide Valid, Preimage, Core;
    match d.run
    case Advancing(_, _, _, _) => FeedAdvanceOK(t, d, r);
    case EntryInsert => if r.Done? { EnterOK(t, d, NewRecord(d.request), r.version, 0); }
    case EntryResume => if r.Found? { EnterOK(t, d, r.record, r.version, 0); }
    case EntryGet => AdmitOK(t, d, r);
    case EntryReget => AdmitOK(t, d, r);
    case Finished(_) =>
  }

  lemma AdmitOK(t: World, d: Driver, r: Reply)
    requires Core(t) && Valid(d.request) && (r.Found? ==> t.record == Some(Row(r.record, r.version)))
    ensures r.Found? ==> DriverOK(t, d.(run := Admit(d.request, r.record, r.version)))
  {
    hide Valid, Preimage, Core;
    if r.Found? && Preimage(r.record.request) == Preimage(d.request) { EnterOK(t, d, r.record, r.version, 0); }
  }

  lemma ActKeeps(w: World, id: nat, fault: Fault, pick: Pick)
    requires Inv(w) && id in w.drivers
    ensures Inv(Step(w, Act(id, fault, pick))) && Later(w, Step(w, Act(id, fault, pick)))
  {
    hide DriverOK, Truth, CallOf, Feed, Facts, Apply, Valid;
    var d := w.drivers[id];
    var (t, r) := Perform(w, CallOf(d), fault, pick);
    CallIsGood(w, d, pick);
    NoChangeIsGood(w);
    assert Good(w, t);
    ReplyIsTrue(w, CallOf(d), fault, pick);
    forall i | i in w.drivers ensures DriverOK(t, w.drivers[i]) {
      DriverLater(w, t, w.drivers[i]);
    }
    FeedOK(t, d, r);
    var u := Step(w, Act(id, fault, pick));
    assert u == t.(drivers := w.drivers[id := Feed(d, r)]);
    forall i | i in u.drivers ensures DriverOK(u, u.drivers[i]) {
      SameTables(t, u, u.drivers[i]);
    }
    SameFacts(t, u);
  }

  lemma SameTables(t: World, u: World, d: Driver)
    requires u == t.(drivers := u.drivers)
    ensures DriverOK(t, d) <==> DriverOK(u, d)
  {
    hide Valid, Preimage;
  }

  lemma SameFacts(t: World, u: World)
    requires u == t.(drivers := u.drivers)
    ensures forall g :: Facts(t, g) <==> Facts(u, g)
  {}

  lemma StepKeeps(w: World, e: Event)
    requires Inv(w)
    ensures Inv(Step(w, e)) && Later(w, Step(w, e))
  {
    if e.Act? {
      if e.id in w.drivers { ActKeeps(w, e.id, e.fault, e.pick); }
    } else {
      hide DriverOK, Facts, Valid;
      var u := Step(w, e);
      SameFacts(w, u);
      forall i | i in u.drivers ensures DriverOK(u, u.drivers[i]) {
        SameTables(w, u, u.drivers[i]);
        if i !in w.drivers { StartOK(u, e); }
      }
    }
  }

  lemma StartOK(w: World, e: Event)
    requires !e.Act?
    ensures DriverOK(w, if e.Execute? then StartExecute(e.request) else StartResume(e.request))
  {}

  lemma {:induction false} RunKeeps(es: seq<Event>)
    ensures Inv(RunAll(FRESH, es))
  {
    hide DriverOK, Step;
    if es != [] {
      RunKeeps(es[..|es| - 1]);
      StepKeeps(RunAll(FRESH, es[..|es| - 1]), es[|es| - 1]);
    }
  }

  lemma {:induction false} RunsMoveForward(before: seq<Event>, more: seq<Event>)
    ensures LaterTables(RunAll(FRESH, before), RunAll(FRESH, before + more))
  {
    hide DriverOK, Step;
    RunKeeps(before);
    if more == [] {
      assert before + more == before;
    } else {
      var front := more[..|more| - 1];
      RunsMoveForward(before, front);
      RunKeeps(before + front);
      assert (before + more)[..|before + more| - 1] == before + front;
      StepKeeps(RunAll(FRESH, before + front), more[|more| - 1]);
    }
  }

  /** The part of Later that holds over many steps. */
  predicate LaterTables(w: World, t: World) {
    && (w.record.Some? ==> t.record.Some? && LaterRow(w.record.value, t.record.value))
    && (w.applied.Some? ==> t.applied == w.applied) && w.refusals <= t.refusals && w.codes <= t.codes
    && (w.committed.Some? ==> t.committed == w.committed)
    && (w.hold.Some? ==> t.hold.Some? && LaterHold(w.hold.value, t.hold.value))
  }

  // ------------------------------------------------------------- main results

  /** COMPLETED means the owner applied exactly once, the visitor committed exactly once
      and the record carries the visitor's own response. */
  lemma CompletedIsAtomic(es: seq<Event>)
    requires var w := RunAll(FRESH, es); w.record.Some? && w.record.value.value.status == Completed
    ensures var w := RunAll(FRESH, es);
      w.applies == 1 && w.commits == 1 && w.committed.Some?
      && w.record.value.value.payload == Final(w.committed.value)
  {
    RunKeeps(es);
  }

  /** RELEASING and ABORTED mean that the visitor committed nothing, and never will; and
      that the owner applied nothing, and never will, in every run in which the owner
      does not both refuse and apply this interaction. */
  lemma AbortedIsAtomic(before: seq<Event>, more: seq<Event>)
    requires var w := RunAll(FRESH, before); w.record.Some? && Back(w.record.value.value.status)
    ensures var t := RunAll(FRESH, before + more); t.commits == 0 && (t.applies > 0 ==> t.refusals > 0)
  {
    hide DriverOK;
    RunKeeps(before);
    RunKeeps(before + more);
    RunsMoveForward(before, more);
  }

  /** All callers agree: no interaction succeeds for one and aborts for another, at any
      two moments of a run, and all successes return one response. */
  lemma CallersAgree(before: seq<Event>, more: seq<Event>, a: nat, b: nat)
    requires var w := RunAll(FRESH, before);
      a in w.drivers && w.drivers[a].run.Finished? && w.drivers[a].run.outcome.Success?
    requires var t := RunAll(FRESH, before + more); b in t.drivers && t.drivers[b].run.Finished?
    ensures var x := RunAll(FRESH, before).drivers[a].run.outcome;
      var y := RunAll(FRESH, before + more).drivers[b].run.outcome;
      !y.AbortedWith? && (y.Success? ==> x == y)
  {
    RunKeeps(before);
    RunKeeps(before + more);
    RunsMoveForward(before, more);
    assert DriverOK(RunAll(FRESH, before), RunAll(FRESH, before).drivers[a]);
    assert DriverOK(RunAll(FRESH, before + more), RunAll(FRESH, before + more).drivers[b]);
  }

  /** A success carries the response the visitor committed, and that echoes the patch of
      the one application of the owner. */
  lemma SuccessEchoesTheOwner(es: seq<Event>, id: nat)
    requires var w := RunAll(FRESH, es); id in w.drivers && w.drivers[id].run.Finished? && w.drivers[id].run.outcome.Success?
    ensures var w := RunAll(FRESH, es);
      w.committed == Some(w.drivers[id].run.outcome.receipt) && w.applied.Some?
      && w.drivers[id].run.outcome.receipt.patch == Some(w.applied.value.patch)
  {
    RunKeeps(es);
    assert DriverOK(RunAll(FRESH, es), RunAll(FRESH, es).drivers[id]);
  }

  /** A caller that is told of an abort is given the code of the ABORTED record, which is
      one that a reserve or owner call of this interaction was refused with; and two such
      callers, at any two moments, are given the same. */
  lemma AbortsCarryTheCode(before: seq<Event>, more: seq<Event>, a: nat, b: nat)
    requires var w := RunAll(FRESH, before);
      a in w.drivers && w.drivers[a].run.Finished? && w.drivers[a].run.outcome.AbortedWith?
    requires var t := RunAll(FRESH, before + more);
      b in t.drivers && t.drivers[b].run.Finished? && t.drivers[b].run.outcome.AbortedWith?
    ensures var w := RunAll(FRESH, before);
      var code := w.drivers[a].run.outcome.code;
      && w.record.Some? && w.record.value.value.status == Aborted && w.record.value.value.code == code
      && code.Domain? && code.number in w.codes
      && RunAll(FRESH, before + more).drivers[b].run.outcome == AbortedWith(code)
  {
    hide Valid, Preimage;
    RunKeeps(before);
    RunKeeps(before + more);
    RunsMoveForward(before, more);
    assert DriverOK(RunAll(FRESH, before), RunAll(FRESH, before).drivers[a]);
    assert DriverOK(RunAll(FRESH, before + more), RunAll(FRESH, before + more).drivers[b]);
  }

  /** Every Execute call that is past its digest check works on, or answers from, a
      record of its own request: two of them, at any two moments, agree on all nine
      digested fields, though possibly not on quantity, which the digest leaves out. */
  lemma ExecutesAgree(before: seq<Event>, more: seq<Event>, a: nat, b: nat)
    requires var w := RunAll(FRESH, before); a in w.drivers && w.drivers[a].checked && Involved(w.drivers[a])
    requires var t := RunAll(FRESH, before + more); b in t.drivers && t.drivers[b].checked && Involved(t.drivers[b])
    ensures SameIdentity(RunAll(FRESH, before).drivers[a].request, RunAll(FRESH, before + more).drivers[b].request)
  {
    hide Facts, Preimage, Valid, SameIdentity;
    RunKeeps(before);
    RunKeeps(before + more);
    RunsMoveForward(before, more);
    var x, y := RunAll(FRESH, before).drivers[a], RunAll(FRESH, before + more).drivers[b];
    assert DriverOK(RunAll(FRESH, before), x) && DriverOK(RunAll(FRESH, before + more), y);
    PreimageDetermines(x.request, y.request);
  }

  // ------------------------------------------------------- torn between the two sides

  /** The record was sent back although the owner applied the action. */
  predicate Torn(w: World) {
    w.record.Some? && Back(w.record.value.value.status) && w.applies > 0
  }

  /** A driver's write of RELEASING or ABORTED lands after the owner has applied. */
  predicate SendsBackApplied(w: World, e: Event) {
    && e.Act? && e.id in w.drivers && !e.fault.Refuse? && w.applied.Some?
    && var run := w.drivers[e.id].run;
       && run.Advancing? && run.at.Writing? && Back(run.at.next.status)
       && w.record.Some? && w.record.value.version == run.version
  }

  /** A driver that loaded the record before it was sent back still asks the owner, and
      the owner applies. */
  predicate AppliesSentBack(w: World, e: Event) {
    && e.Act? && e.id in w.drivers && !e.fault.Refuse? && w.applied.None? && !e.pick.reject && e.pick.yes
    && w.drivers[e.id].run.Advancing? && w.drivers[e.id].run.at.Asking?
    && w.record.Some? && Back(w.record.value.value.status)
  }

  lemma TornArisesIff(w: World, e: Event)
    requires Inv(w) && !Torn(w)
    ensures Torn(Step(w, e)) <==> SendsBackApplied(w, e) || AppliesSentBack(w, e)
  {
    hide Valid, Preimage, Facts, Matches;
    if e.Act? && e.id in w.drivers { assert DriverOK(w, w.drivers[e.id]); }
  }

  lemma TornStays(w: World, e: Event)
    requires Inv(w) && Torn(w)
    ensures Torn(Step(w, e))
  {
    hide DriverOK, Facts;
    StepKeeps(w, e);
  }

  ghost predicate Tears(es: seq<Event>) {
    exists n :: 0 <= n < |es| && TearsAt(es, n)
  }

  ghost predicate TearsAt(es: seq<Event>, n: nat)
    requires n < |es|
  {
    SendsBackApplied(RunAll(FRESH, es[..n]), es[n]) || AppliesSentBack(RunAll(FRESH, es[..n]), es[n])
  }

  /** A run ends torn if and only if one of its steps sends back an applied interaction
      or applies one that was sent back; both take a refusal and an application. */
  lemma {:induction false} TornIff(es: seq<Event>)
    ensures Torn(RunAll(FRESH, es)) <==> Tears(es)
    ensures Torn(RunAll(FRESH, es)) ==> RunAll(FRESH, es).refusals > 0 && RunAll(FRESH, es).applies > 0
  {
    hide Inv, Step, SendsBackApplied, AppliesSentBack;
    RunKeeps(es);
    if Torn(RunAll(FRESH, es)) { TornNeedsBoth(RunAll(FRESH, es)); }
    if es != [] {
      var m := |es| - 1;
      TornIff(es[..m]);
      RunKeeps(es[..m]);
      var w := RunAll(FRESH, es[..m]);
      assert forall n :: 0 <= n < m ==> es[..m][..n] == es[..n];
      if Torn(w) {
        TornStays(w, es[m]);
        var n :| 0 <= n < m && TearsAt(es[..m], n);
        assert TearsAt(es, n);
      } else {
        TornArisesIff(w, es[m]);
        assert forall n :: 0 <= n < m ==> (TearsAt(es, n) <==> TearsAt(es[..m], n));
        assert TearsAt(es, m) <==> Torn(RunAll(FRESH, es));
      }
    }
  }

  lemma TornNeedsBoth(w: World)
    requires Inv(w) && Torn(w)
    ensures w.refusals > 0
  {
    hide DriverOK;
  }

  lemma RunSnoc(es: seq<Event>, e: Event)
    ensures RunAll(FRESH, es + [e]) == Step(RunAll(FRESH, es), e)
  {
    assert (es + [e])[..|es|] == es;
  }

  const SAMPLE := Request(APPLY_PEST, 1, 2, seq(16, _ => 0), 1, 1, 0, [], 0, 0)
  const YES := Pick(true, false, 5, 0)
  const NO := Pick(false, true, 0, 7)
  const RESERVED := NewRecord(SAMPLE).(status := VisitorReserved)
  const SENT_BACK := NewRecord(SAMPLE).(status := Releasing, code := Domain(7))

  lemma Nothing()
    ensures RunAll(FRESH, []) == FRESH
  {}

  lemma More(w: World, es: seq<Event>, e: Event) returns (next: World, longer: seq<Event>)
    requires w == RunAll(FRESH, es)
    ensures next == Step(w, e) && longer == es + [e] && next == RunAll(FRESH, longer)
  {
    RunSnoc(es, e);
    next, longer := Step(w, e), es + [e];
  }

  /** Caller 1 has reserved and is about to ask the owner. */
  lemma AboutToAsk() returns (w: World, es: seq<Event>)
    ensures w == RunAll(FRESH, es) && w.drivers.Keys == {1} && Untouched(w) && w.applies == 0 && w.committed.None? && w.hold == Some(HoldFor(SAMPLE))
    ensures w.record == Some(Row(RESERVED, 2)) && w.drivers[1] == Driver(SAMPLE, true, Advancing(Asking, RESERVED, 2, 1))
  {
    Nothing();
    hide RunAll, Preimage;
    w, es := FRESH, [];
    w, es := More(w, es, Execute(1, SAMPLE));
    assert w.drivers[1].run == EntryGet;
    w, es := More(w, es, Act(1, Fine, YES));
    w, es := More(w, es, Act(1, Fine, YES));
    assert w.drivers[1].run == Advancing(Reserving, NewRecord(SAMPLE), 1, 0);
    w, es := More(w, es, Act(1, Fine, YES));
    w, es := More(w, es, Act(1, Fine, YES));
  }

  /** Applied, then refused: caller 1 loses the owner's reply, and caller 2's owner call
      is refused by the lease check that runs before the receipt lookup. */
  lemma RefusedAfterApplying() returns (es: seq<Event>)
    ensures Torn(RunAll(FRESH, es))
  {
    hide RunAll, Preimage;
    var w;
    w, es := AboutToAsk();
    w, es := More(w, es, Act(1, Lose, YES));
    assert w.applied == Some(Application(SAMPLE, 5)) && w.applies == 1;
    w, es := More(w, es, Resume(2, SAMPLE));
    w, es := More(w, es, Act(2, Fine, NO));
    assert w.drivers[2].run == Advancing(Asking, RESERVED, 2, 0);
    w, es := More(w, es, Act(2, Fine, NO));
    assert w.drivers[2].run == Advancing(Writing(SENT_BACK, false), RESERVED, 2, 0);
    w, es := More(w, es, Act(2, Fine, NO));
  }

  /** Refused, then applied: caller 1 is refused because of the plot, the plot changes,
      caller 2's owner call is applied, and caller 1's write sends the record back. */
  lemma AppliedAfterRefusing() returns (es: seq<Event>)
    ensures Torn(RunAll(FRESH, es))
  {
    hide RunAll, Preimage;
    var w;
    w, es := AboutToAsk();
    w, es := More(w, es, Resume(2, SAMPLE));
    w, es := More(w, es, Act(2, Fine, YES));
    assert w.drivers[2].run == Advancing(Asking, RESERVED, 2, 0);
    w, es := More(w, es, Act(1, Fine, NO));
    assert w.drivers[1].run == Advancing(Writing(SENT_BACK, false), RESERVED, 2, 1);
    w, es := More(w, es, Act(2, Fine, YES));
    assert w.applies == 1;
    w, es := More(w, es, Act(1, Fine, YES));
  }

}
