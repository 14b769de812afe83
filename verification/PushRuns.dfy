/** A whole connection: any sequence of pushes, begun, aborted and finished snapshots, and
    failing writes. Every push is accounted for; the module says exactly when one is
    written twice, and when unversioned ones are written out of order. */
module PushRuns {
  import opened Common
  import opened PushHub

  datatype Written = Response(body: nat) | Pushed(push: Push)

  /** The subscription, what went out, and what became of every push that arrived: written
      at once, written by a flush, dropped from a full buffer, covered by a snapshot, lost
      in a failed direct write. `partial` counts what failed flushes wrote. */
  datatype World = World(
    ready: bool, buffering: bool, buffer: seq<Push>, out: seq<Written>, arrived: seq<Push>,
    direct: multiset<Push>, flushed: multiset<Push>, dropped: multiset<Push>, covered: multiset<Push>,
    lost: multiset<Push>, partial: multiset<Push>)

  datatype Event =
    | Arrive(push: Push, fails: bool)
    | Begin | Abort
    | Finish(response: nat, baseline: Option<Version>, failAt: Option<nat>)

  const NEW := World(false, false, [], [], [], multiset{}, multiset{}, multiset{}, multiset{}, multiset{}, multiset{})

  function AsWritten(s: seq<Push>): seq<Written> { seq(|s|, i requires 0 <= i < |s| => Pushed(s[i])) }

  /** How many pushes of a flush of `n` are written. */
  function Reached(failAt: Option<nat>, n: nat): nat {
    if failAt.None? || failAt.value > n then n else if failAt.value == 0 then 0 else failAt.value - 1
  }

  predicate Succeeds(failAt: Option<nat>, n: nat) { failAt.None? || failAt.value > n }

  function Sends(w: World, e: Event): seq<Push>
    requires e.Finish?
  {
    Kept(StableSort(w.buffer), e.baseline)
  }

  /** The pushes the event writes. */
  function Writes(w: World, e: Event): seq<Push> {
    match e
    case Arrive(p, fails) => if w.ready && !w.buffering && !fails then [p] else []
    case Finish(_, _, failAt) => Sends(w, e)[..Reached(failAt, |Sends(w, e)|)]
    case _ => []
  }

  function Step(w: World, e: Event): World {
    match e
    case Arrive(p, fails) =>
      var v := w.(arrived := w.arrived + [p]);
      if !w.ready || w.buffering then
        v.(buffer := Appended(w.buffer, p),
           dropped := w.dropped + if |w.buffer| == MAX_BUFFERED then multiset{w.buffer[0]} else multiset{})
      else if fails then v.(lost := w.lost + multiset{p})
      else v.(out := w.out + [Pushed(p)], direct := w.direct + multiset{p})
    case Begin => w.(buffering := true)
    case Abort => w.(buffering := false)
    case Finish(response, baseline, failAt) =>
      var all := Sends(w, e);
      var v := w.(out := w.out + (if failAt == Some(0) then [] else [Response(response)]) + AsWritten(Writes(w, e)));
      if Succeeds(failAt, |all|)
      then v.(ready := true, buffering := false, buffer := [], flushed := w.flushed + multiset(all),
              covered := w.covered + (multiset(w.buffer) - multiset(all)))
      else v.(buffer := StableSort(w.buffer), partial := w.partial + multiset(Writes(w, e)))
  }

  function RunAll(es: seq<Event>): World {
    if es == [] then NEW else Step(RunAll(es[..|es| - 1]), es[|es| - 1])
  }

  function Pushes(out: seq<Written>): seq<Push> {
    if out == [] then []
    else Pushes(out[..|out| - 1]) + if out[|out| - 1].Pushed? then [out[|out| - 1].push] else []
  }

  lemma {:induction false} PushesAppend(a: seq<Written>, b: seq<Written>)
    ensures Pushes(a + b) == Pushes(a) + Pushes(b)
    decreases |b|
  {
    if b == [] {
      assert a + b == a;
    } else {
      assert (a + b)[..|a + b| - 1] == a + b[..|b| - 1];
      PushesAppend(a, b[..|b| - 1]);
    }
  }

  lemma {:induction false} PushesOfWritten(s: seq<Push>)
    ensures Pushes(AsWritten(s)) == s
  {
    if s != [] {
      assert AsWritten(s)[..|s| - 1] == AsWritten(s[..|s| - 1]);
      PushesOfWritten(s[..|s| - 1]);
    }
  }

  /** An event writes its pushes behind what is out, and nothing else but responses. */
  lemma StepWrites(w: World, e: Event)
    ensures Pushes(Step(w, e).out) == Pushes(w.out) + Writes(w, e)
  {
    hide Kept, StableSort, Pushes, AsWritten;
    match e
    case Arrive(p, _) =>
      PushesOne(w.out, Pushed(p));
    case Finish(response, _, failAt) => FlushWrites(w.out, response, failAt, Writes(w, e));
    case _ =>
  }

  lemma PushesOne(out: seq<Written>, x: Written)
    ensures Pushes(out + [x]) == Pushes(out) + if x.Pushed? then [x.push] else []
  {
    assert (out + [x])[..|out|] == out;
  }

  lemma FlushWrites(out: seq<Written>, response: nat, failAt: Option<nat>, sent: seq<Push>)
    ensures Pushes(out + (if failAt == Some(0) then [] else [Response(response)]) + AsWritten(sent)) == Pushes(out) + sent
  {
    hide Pushes, AsWritten;
    PushesOfWritten(sent);
    if failAt == Some(0) {
      assert out + [] == out;
      PushesAppend(out, AsWritten(sent));
    } else {
      PushesOne(out, Response(response));
      PushesAppend(out + [Response(response)], AsWritten(sent));
    }
  }

  // ------------------------------------------------------------- every push is accounted for

  lemma {:induction false} InsertSame(s: seq<Push>, x: Push)
    ensures multiset(Insert(s, x)) == multiset(s) + multiset{x}
  {
    if s != [] && Before(Key(x), Key(s[|s| - 1])) {
      InsertSame(s[..|s| - 1], x);
      assert s == s[..|s| - 1] + [s[|s| - 1]];
    }
  }

  lemma {:induction false} SortSame(s: seq<Push>)
    ensures multiset(StableSort(s)) == multiset(s)
  {
    if s != [] {
      SortSame(s[..|s| - 1]);
      InsertSame(StableSort(s[..|s| - 1]), s[|s| - 1]);
      assert s == s[..|s| - 1] + [s[|s| - 1]];
    }
  }

  lemma {:induction false} KeptWithin(s: seq<Push>, baseline: Option<Version>)
    ensures multiset(Kept(s, baseline)) <= multiset(s)
  {
    if s != [] {
      KeptWithin(s[..|s| - 1], baseline);
      assert s == s[..|s| - 1] + [s[|s| - 1]];
    }
  }

  lemma {:induction false} KeptCounts(s: seq<Push>, baseline: Option<Version>, p: Push)
    ensures multiset(Kept(s, baseline))[p] == if Keeps(p, baseline) then multiset(s)[p] else 0
  {
    if s != [] {
      KeptCounts(s[..|s| - 1], baseline, p);
      assert s == s[..|s| - 1] + [s[|s| - 1]];
    }
  }

  lemma {:induction false} KeptAscends(s: seq<Push>, baseline: Option<Version>)
    requires Ascending(s)
    ensures Ascending(Kept(s, baseline)) && forall p :: p in Kept(s, baseline) ==> p in s
  {
    if s != [] {
      var n := |s| - 1;
      KeptAscends(s[..n], baseline);
      var inner := Kept(s[..n], baseline);
      forall i | 0 <= i < |inner| ensures !Before(Key(s[n]), Key(inner[i])) {
        assert inner[i] in inner && inner[i] in s[..n];
      }
    }
  }

  /** What a flush sends of a buffer: each push as often as it is held, of the versioned
      ones only those of a later epoch than the snapshot, or of its epoch and a larger
      number; first those without a version, then by epoch and number. */
  lemma FlushSends(buffer: seq<Push>, baseline: Option<Version>)
    requires AllValidated(buffer)
    ensures var sent := Kept(StableSort(buffer), baseline);
      && (forall p :: multiset(sent)[p] ==
            if p.version.None? || (baseline.Some? && (
                 || p.version.value.epoch > baseline.value.epoch
                 || (p.version.value.epoch == baseline.value.epoch && p.version.value.seqNo > baseline.value.seqNo)))
            then multiset(buffer)[p] else 0)
      && (forall i, j :: 0 <= i < j < |sent| && sent[i].version.Some? ==>
            && sent[j].version.Some?
            && (|| sent[i].version.value.epoch < sent[j].version.value.epoch
                || (&& sent[i].version.value.epoch == sent[j].version.value.epoch
                    && sent[i].version.value.seqNo <= sent[j].version.value.seqNo)))
  {
    hide StableSort, Kept;
    var sorted := StableSort(buffer);
    var sent := Kept(sorted, baseline);
    StableSortSorts(buffer);
    SortSame(buffer);
    KeptAscends(sorted, baseline);
    forall p ensures multiset(sent)[p] == if Keeps(p, baseline) then multiset(buffer)[p] else 0 {
      KeptCounts(sorted, baseline, p);
    }
    forall i, j | 0 <= i < j < |sent| && sent[i].version.Some?
      ensures sent[j].version.Some? && !Before(sent[j].version.value, sent[i].version.value)
    {
      assert sent[i] in sent && sent[j] in sent && sent[i] in sorted;
      assert sent[i] in buffer && Validated(sent[i]);
      assert !Before(Key(sent[j]), Key(sent[i]));
    }
  }

  lemma SendsWithin(w: World, e: Event)
    requires e.Finish?
    ensures multiset(Sends(w, e)) <= multiset(w.buffer)
    ensures multiset(Writes(w, e)) <= multiset(Sends(w, e))
  {
    hide Kept, StableSort;
    SortSame(w.buffer);
    KeptWithin(StableSort(w.buffer), e.baseline);
    var (all, n) := (Sends(w, e), Reached(e.failAt, |Sends(w, e)|));
    assert all == all[..n] + all[n..];
  }

  /** Where the pushes that were ever held back are. */
  function HeldEver(w: World): multiset<Push> { w.flushed + w.dropped + w.covered + multiset(w.buffer) }

  predicate Placed(w: World) { multiset(w.arrived) == w.direct + w.lost + HeldEver(w) && |w.buffer| <= MAX_BUFFERED }

  predicate Sent(w: World) { multiset(Pushes(w.out)) == w.direct + w.flushed + w.partial }

  ghost predicate OnlyHeldFail(w: World) { forall p :: w.partial[p] > 0 ==> HeldEver(w)[p] > 0 }

  ghost predicate Accounted(w: World) { Placed(w) && Sent(w) && OnlyHeldFail(w) }

  lemma AppendedPlaces(buffer: seq<Push>, p: Push)
    requires |buffer| <= MAX_BUFFERED
    ensures |Appended(buffer, p)| <= MAX_BUFFERED
    ensures multiset(Appended(buffer, p)) + (if |buffer| == MAX_BUFFERED then multiset{buffer[0]} else multiset{})
      == multiset(buffer) + multiset{p}
  {
    if |buffer| == MAX_BUFFERED { assert buffer == [buffer[0]] + buffer[1..]; }
  }

  /** What is held back moves on, and is never lost sight of. */
  lemma HeldEverStep(w: World, e: Event)
    requires |w.buffer| <= MAX_BUFFERED
    ensures var t := Step(w, e);
      && |t.buffer| <= MAX_BUFFERED
      && HeldEver(t) == HeldEver(w) + if e.Arrive? && (!w.ready || w.buffering) then multiset{e.push} else multiset{}
  {
    hide Appended, Writes, AsWritten, Sends, StableSort;
    assert HeldEver(w) + multiset{} == HeldEver(w);
    match e
    case Arrive(_, _) => ArriveHeld(w, e);
    case Finish(_, _, _) => FlushHeld(w, e);
    case _ => assert HeldEver(Step(w, e)) == HeldEver(w);
  }

  lemma ArriveHeld(w: World, e: Event)
    requires |w.buffer| <= MAX_BUFFERED && e.Arrive?
    ensures var t := Step(w, e);
      && |t.buffer| <= MAX_BUFFERED
      && HeldEver(t) == HeldEver(w) + if !w.ready || w.buffering then multiset{e.push} else multiset{}
  {
    hide Appended;
    var t := Step(w, e);
    if !w.ready || w.buffering {
      AppendedPlaces(w.buffer, e.push);
      var gone := if |w.buffer| == MAX_BUFFERED then multiset{w.buffer[0]} else multiset{};
      assert multiset(t.buffer) + gone == multiset(w.buffer) + multiset{e.push};
      assert HeldEver(t) == (w.flushed + w.dropped + w.covered) + (multiset(t.buffer) + gone);
    }
  }

  lemma FlushHeld(w: World, e: Event)
    requires |w.buffer| <= MAX_BUFFERED && e.Finish?
    ensures |Step(w, e).buffer| <= MAX_BUFFERED && HeldEver(Step(w, e)) == HeldEver(w)
  {
    hide Writes, AsWritten, Sends, StableSort;
    SendsWithin(w, e);
    SortSame(w.buffer);
    StableSortSorts(w.buffer);
    var (all, t) := (multiset(Sends(w, e)), Step(w, e));
    if Succeeds(e.failAt, |Sends(w, e)|) {
      assert t.flushed + t.covered == w.flushed + w.covered + multiset(w.buffer);
      assert t.buffer == [] && t.dropped == w.dropped;
    } else {
      assert t.flushed == w.flushed && t.covered == w.covered && t.dropped == w.dropped;
    }
  }

  lemma PlacedStep(w: World, e: Event)
    requires Placed(w)
    ensures Placed(Step(w, e))
  {
    hide HeldEver, Writes, AsWritten, Appended, Sends, StableSort;
    HeldEverStep(w, e);
  }

  lemma SentStep(w: World, e: Event)
    requires Sent(w)
    ensures Sent(Step(w, e))
  {
    hide Pushes, AsWritten, Kept, StableSort, Appended;
    StepWrites(w, e);
    if e.Finish? && Succeeds(e.failAt, |Sends(w, e)|) { assert Writes(w, e) == Sends(w, e); }
    hide Sends;
  }

  lemma OnlyHeldFailStep(w: World, e: Event)
    requires OnlyHeldFail(w) && |w.buffer| <= MAX_BUFFERED
    ensures OnlyHeldFail(Step(w, e))
  {
    HeldEverStep(w, e);
    if e.Finish? { SendsWithin(w, e); }
    hide Writes, AsWritten, Appended, Sends, StableSort;
  }

  lemma AccountedStep(w: World, e: Event)
    requires Accounted(w)
    ensures Accounted(Step(w, e))
  {
    hide Step, Sent, OnlyHeldFail;
    PlacedStep(w, e);
    SentStep(w, e);
    OnlyHeldFailStep(w, e);
  }

  /** Over every run each push that arrived is in exactly one place: it was written at
      once, written by a flush, dropped from a full buffer, covered by a snapshot, lost in
      a failed direct write, or is still held; and what went out is what was written at
      once, by flushes, and by failed flushes. */
  lemma {:induction false} EveryPushIsAccountedFor(es: seq<Event>)
    ensures Accounted(RunAll(es))
  {
    hide Step, Accounted;
    if es == [] {
      NewIsAccounted();
    } else {
      EveryPushIsAccountedFor(es[..|es| - 1]);
      AccountedStep(RunAll(es[..|es| - 1]), es[|es| - 1]);
    }
  }

  lemma NewIsAccounted()
    ensures Accounted(NEW)
  {}

  /** A push that arrived once is written twice if and only if flushes wrote it twice, of
      which all but at most one failed; without failed flushes nothing is written twice. */
  lemma WrittenTwiceIff(es: seq<Event>, p: Push)
    requires multiset(RunAll(es).arrived)[p] <= 1
    ensures var w := RunAll(es);
      && (multiset(Pushes(w.out))[p] >= 2 <==> w.flushed[p] + w.partial[p] >= 2)
      && w.flushed[p] <= 1
  {
    EveryPushIsAccountedFor(es);
  }

  // ------------------------------------------------------------- order

  predicate Rising(s: seq<Push>) { forall i, j :: 0 <= i < j < |s| ==> s[i].body < s[j].body }

  /** Pushes are validated, and their bodies stand for their place in the arrival order. */
  predicate Numbered(es: seq<Event>) {
    es == [] || (
      && Numbered(es[..|es| - 1])
      && (es[|es| - 1].Arrive? ==>
            Validated(es[|es| - 1].push) && es[|es| - 1].push.body == |RunAll(es[..|es| - 1]).arrived|))
  }

  /** The unversioned pushes that are out, and those held. */
  function UOut(w: World): seq<Push> { Unversioned(Pushes(w.out)) }

  function UHeld(w: World): seq<Push> { Unversioned(w.buffer) }

  predicate AllBelow(s: seq<Push>, n: nat) { forall i :: 0 <= i < |s| ==> s[i].body < n }

  /** What a numbered run keeps, whatever happens. */
  predicate Orderly(w: World) {
    && AllValidated(w.buffer) && Rising(UHeld(w)) && |w.buffer| <= MAX_BUFFERED
    && AllBelow(UHeld(w), |w.arrived|) && AllBelow(UOut(w), |w.arrived|)
  }

  lemma {:induction false} UnversionedAppend(a: seq<Push>, b: seq<Push>)
    ensures Unversioned(a + b) == Unversioned(a) + Unversioned(b)
    decreases |b|
  {
    if b == [] {
      assert a + b == a;
    } else {
      assert (a + b)[..|a + b| - 1] == a + b[..|b| - 1];
      UnversionedAppend(a, b[..|b| - 1]);
    }
  }

  lemma UnversionedOne(p: Push)
    ensures Unversioned([p]) == if p.version.None? then [p] else []
  {
    UnversionedLast([], p);
    assert [] + [p] == [p];
  }

  lemma SortKeepsUnversioned(s: seq<Push>)
    requires AllValidated(s)
    ensures Unversioned(StableSort(s)) == Unversioned(s) && AllValidated(StableSort(s))
  {
    hide StableSort, Unversioned, OfKey;
    StableSortSorts(s);
    var sorted := StableSort(s);
    forall i | 0 <= i < |sorted| ensures Validated(sorted[i]) { assert sorted[i] in s; }
    UnversionedIsKeyZero(s);
    UnversionedIsKeyZero(sorted);
  }

  lemma {:induction false} KeptUnversioned(s: seq<Push>, baseline: Option<Version>)
    ensures Unversioned(Kept(s, baseline)) == Unversioned(s)
  {
    if s != [] {
      KeptUnversioned(s[..|s| - 1], baseline);
      var front := Kept(s[..|s| - 1], baseline);
      if Keeps(s[|s| - 1], baseline) { UnversionedLast(front, s[|s| - 1]); } else { assert front + [] == front; }
    }
  }

  /** A flush sends the held unversioned pushes in arrival order, and a failed one a
      prefix of them. */
  lemma SendsUnversioned(w: World, e: Event)
    requires AllValidated(w.buffer) && e.Finish?
    ensures Unversioned(Writes(w, e)) <= UHeld(w)
    ensures Succeeds(e.failAt, |Sends(w, e)|) ==> Unversioned(Writes(w, e)) == UHeld(w)
  {
    hide Kept, StableSort, Unversioned;
    SortKeepsUnversioned(w.buffer);
    KeptUnversioned(StableSort(w.buffer), e.baseline);
    var (all, n) := (Sends(w, e), Reached(e.failAt, |Sends(w, e)|));
    assert all == all[..n] + all[n..];
    UnversionedAppend(all[..n], all[n..]);
    if Succeeds(e.failAt, |all|) { assert all[..n] == all; }
  }

  lemma UOutStep(w: World, e: Event)
    ensures UOut(Step(w, e)) == UOut(w) + Unversioned(Writes(w, e))
  {
    hide Step, Writes, Pushes, Unversioned;
    StepWrites(w, e);
    UnversionedAppend(Pushes(w.out), Writes(w, e));
  }

  /** A held push comes behind the others, of which the first may be dropped. */
  lemma HeldMore(buffer: seq<Push>, p: Push)
    requires |buffer| <= MAX_BUFFERED && Rising(Unversioned(buffer)) && AllBelow(Unversioned(buffer), p.body)
    ensures var u := Unversioned(Appended(buffer, p));
      && Rising(u) && AllBelow(u, p.body + 1)
      && forall x :: x in u ==> x in Unversioned(buffer) || x == p
  {
    hide Unversioned, Rising, AllBelow, Suffix;
    var rest := if |buffer| == MAX_BUFFERED then buffer[1..] else buffer;
    var (u, v) := (Unversioned(buffer), Unversioned(rest));
    UnversionedLast(rest, p);
    assert Suffix(v, u) by { TailIsSuffix(buffer); }
    TailRises(u, v, p.body);
    OneMore(v, p);
    if p.version.Some? { assert v + [] == v; }
  }

  lemma TailIsSuffix(s: seq<Push>)
    ensures Suffix(Unversioned(s), Unversioned(s)) && (s != [] ==> Suffix(Unversioned(s[1..]), Unversioned(s)))
  {
    hide Unversioned;
    if s != [] { UnversionedTail(s); }
  }

  lemma OneMore(v: seq<Push>, p: Push)
    requires Rising(v) && AllBelow(v, p.body)
    ensures AllBelow(v, p.body + 1) && Rising(v + [p]) && AllBelow(v + [p], p.body + 1)
    ensures forall x :: x in v + [p] ==> x in v || x == p
  {}

  lemma TailRises(u: seq<Push>, v: seq<Push>, n: nat)
    requires Rising(u) && AllBelow(u, n) && Suffix(v, u)
    ensures Rising(v) && AllBelow(v, n) && forall x :: x in v ==> x in u
  {
    assert forall i :: 0 <= i < |v| ==> v[i] == u[|u| - |v| + i];
  }

  predicate Fits(w: World, e: Event) { e.Arrive? ==> Validated(e.push) && e.push.body == |w.arrived| }

  lemma UHeldStep(w: World, e: Event)
    requires Orderly(w) && Fits(w, e)
    ensures var t := Step(w, e);
      AllValidated(t.buffer) && Rising(UHeld(t)) && |t.buffer| <= MAX_BUFFERED && AllBelow(UHeld(t), |t.arrived|)
  {
    hide Kept, StableSort, Unversioned, Pushes, Writes, AsWritten;
    match e
    case Arrive(p, _) =>
      HeldMore(w.buffer, p);
    case Finish(_, _, failAt) =>
      SortKeepsUnversioned(w.buffer);
      StableSortSorts(w.buffer);
      NoneUnversioned();
    case _ =>
  }

  lemma NoneUnversioned()
    ensures Unversioned([]) == []
  {}

  lemma OrderlyStep(w: World, e: Event)
    requires Orderly(w) && Fits(w, e)
    ensures Orderly(Step(w, e))
  {
    hide Unversioned, Pushes, Step, Writes;
    UHeldStep(w, e);
    UOutStep(w, e);
    WritesBelow(w, e);
  }

  lemma WritesBelow(w: World, e: Event)
    requires Orderly(w) && Fits(w, e)
    ensures |w.arrived| <= |Step(w, e).arrived| && AllBelow(Unversioned(Writes(w, e)), |Step(w, e).arrived|)
    ensures Rising(Unversioned(Writes(w, e)))
    ensures e.Arrive? ==> forall i :: 0 <= i < |Unversioned(Writes(w, e))| ==> Unversioned(Writes(w, e))[i].body == |w.arrived|
  {
    hide Unversioned, Pushes, Kept, StableSort;
    NoneUnversioned();
    match e
    case Arrive(p, _) => UnversionedOne(p);
    case Finish(_, _, _) => SendsUnversioned(w, e);
    case _ =>
  }

  lemma {:induction false} OrderlyRun(es: seq<Event>)
    requires Numbered(es)
    ensures Orderly(RunAll(es))
  {
    hide Step, Orderly;
    if es == [] {
      NewIsOrderly();
    } else {
      OrderlyRun(es[..|es| - 1]);
      OrderlyStep(RunAll(es[..|es| - 1]), es[|es| - 1]);
    }
  }

  lemma NewIsOrderly()
    ensures Orderly(NEW)
  {}

  /** A flush writes an unversioned push although that one, or a later one, is out. */
  predicate Late(w: World, e: Event) {
    var written := Unversioned(Writes(w, e));
    e.Finish?
    && exists i, j :: 0 <= i < |UOut(w)| && 0 <= j < |written| && written[j].body <= UOut(w)[i].body
  }

  ghost predicate EverLate(es: seq<Event>) {
    es != [] && (EverLate(es[..|es| - 1]) || Late(RunAll(es[..|es| - 1]), es[|es| - 1]))
  }

  lemma RisingAppend(a: seq<Push>, b: seq<Push>)
    requires Rising(b)
    ensures Rising(a + b) <==> Rising(a) && forall i, j :: 0 <= i < |a| && 0 <= j < |b| ==> a[i].body < b[j].body
  {
    if Rising(a + b) {
      forall i, j | 0 <= i < j < |a| ensures a[i].body < a[j].body {
        assert (a + b)[i] == a[i] && (a + b)[j] == a[j];
      }
      forall i, j | 0 <= i < |a| && 0 <= j < |b| ensures a[i].body < b[j].body {
        assert (a + b)[i] == a[i] && (a + b)[|a| + j] == b[j];
      }
    }
  }

  lemma LateIff(w: World, e: Event)
    requires Orderly(w) && Fits(w, e)
    ensures Rising(UOut(Step(w, e))) <==> Rising(UOut(w)) && !Late(w, e)
  {
    hide Unversioned, Pushes, Step;
    UOutStep(w, e);
    WritesBelow(w, e);
    RisingAppend(UOut(w), Unversioned(Writes(w, e)));
    hide UOut;
    if e.Begin? || e.Abort? { NoneUnversioned(); }
  }

  /** The unversioned pushes of a connection are written in arrival order and none twice,
      if and only if no flush comes late for one. */
  lemma {:induction false} InOrderIff(es: seq<Event>)
    requires Numbered(es)
    ensures Rising(UOut(RunAll(es))) <==> !EverLate(es)
  {
    hide Step, Orderly, Late;
    if es == [] {
      NewIsOrderly();
    } else {
      InOrderIff(es[..|es| - 1]);
      OrderlyRun(es[..|es| - 1]);
      LateIff(RunAll(es[..|es| - 1]), es[|es| - 1]);
    }
  }

  // ------------------------------------------------------------- how that comes about

  /** An unversioned push is written at once while another one is held. */
  predicate Overtakes(w: World, e: Event) {
    e.Arrive? && e.push.version.None? && Writes(w, e) != [] && UHeld(w) != []
  }

  /** A flush fails after it has written an unversioned push. */
  predicate FailsMidway(w: World, e: Event) {
    e.Finish? && !Succeeds(e.failAt, |Sends(w, e)|) && Unversioned(Writes(w, e)) != []
  }

  ghost predicate EverOvertakes(es: seq<Event>) {
    es != [] && (EverOvertakes(es[..|es| - 1]) || Overtakes(RunAll(es[..|es| - 1]), es[|es| - 1]))
  }

  ghost predicate EverFailsMidway(es: seq<Event>) {
    es != [] && (EverFailsMidway(es[..|es| - 1]) || FailsMidway(RunAll(es[..|es| - 1]), es[|es| - 1]))
  }

  /** Everything out is older than everything held. */
  predicate Apart(w: World) {
    forall i, j :: 0 <= i < |UOut(w)| && 0 <= j < |UHeld(w)| ==> UOut(w)[i].body < UHeld(w)[j].body
  }

  lemma ApartStep(w: World, e: Event)
    requires Orderly(w) && Fits(w, e) && Apart(w) && !Overtakes(w, e) && !FailsMidway(w, e)
    ensures Apart(Step(w, e)) && !Late(w, e)
  {
    hide Pushes, Unversioned, Kept, StableSort, AsWritten;
    UOutStep(w, e);
    match e
    case Arrive(_, _) => ArriveApart(w, e);
    case Finish(_, _, _) =>
      SendsUnversioned(w, e);
      SortKeepsUnversioned(w.buffer);
      NoneUnversioned();
    case _ => NoneUnversioned();
  }

  lemma ArriveApart(w: World, e: Event)
    requires Orderly(w) && Fits(w, e) && Apart(w) && !Overtakes(w, e) && e.Arrive?
    ensures Apart(Step(w, e))
  {
    hide Pushes, Unversioned;
    UOutStep(w, e);
    UnversionedOne(e.push);
    NoneUnversioned();
    var t := Step(w, e);
    if !w.ready || w.buffering {
      HeldMore(w.buffer, e.push);
      forall i, j | 0 <= i < |UOut(t)| && 0 <= j < |UHeld(t)| ensures UOut(t)[i].body < UHeld(t)[j].body {
        var x := UHeld(t)[j];
        if x in UHeld(w) { var k :| 0 <= k < |UHeld(w)| && UHeld(w)[k] == x; }
      }
    }
  }

  /** A flush comes late for a push only if one overtook a held one before, or a flush
      failed midway. */
  lemma {:induction false} LateNeedsACause(es: seq<Event>)
    requires Numbered(es) && !EverOvertakes(es) && !EverFailsMidway(es)
    ensures !EverLate(es) && Apart(RunAll(es)) && Rising(UOut(RunAll(es)))
  {
    hide Step, Orderly, Late, Overtakes, FailsMidway, Apart;
    InOrderIff(es);
    if es == [] {
      NewIsApart();
    } else {
      LateNeedsACause(es[..|es| - 1]);
      OrderlyRun(es[..|es| - 1]);
      ApartStep(RunAll(es[..|es| - 1]), es[|es| - 1]);
    }
  }

  lemma NewIsApart()
    ensures Apart(NEW)
  {}

  /** Pushes are held although later ones are written at once. */
  predicate Stranded(w: World) { w.ready && !w.buffering && w.buffer != [] }

  /** A snapshot of a connection that was ready is given up with pushes held. */
  predicate Strands(w: World, e: Event) { e.Abort? && w.ready && w.buffer != [] }

  predicate Rescues(w: World, e: Event) {
    e.Begin? || (e.Finish? && Succeeds(e.failAt, |Sends(w, e)|))
  }

  ghost predicate LeftStranded(es: seq<Event>) {
    es != []
    && var (w, e) := (RunAll(es[..|es| - 1]), es[|es| - 1]);
       Strands(w, e) || (LeftStranded(es[..|es| - 1]) && !Rescues(w, e))
  }

  lemma StrandedStep(w: World, e: Event)
    ensures Stranded(Step(w, e)) <==> Strands(w, e) || (Stranded(w) && !Rescues(w, e))
    ensures Overtakes(w, e) ==> Stranded(w)
  {
    hide Kept, StableSort, Pushes, AsWritten, Unversioned;
    NoneUnversioned();
    StableSortSorts(w.buffer);
  }

  /** A push can overtake held ones exactly while the last snapshot of the ready
      connection was given up with pushes held, and none was begun or finished since. */
  lemma {:induction false} StrandedIff(es: seq<Event>)
    ensures Stranded(RunAll(es)) <==> LeftStranded(es)
  {
    hide Step, Strands, Rescues;
    if es != [] {
      StrandedIff(es[..|es| - 1]);
      StrandedStep(RunAll(es[..|es| - 1]), es[|es| - 1]);
    }
  }

  // ------------------------------------------------------------- both happen

  const NO_VERSION: Option<Version> := None

  lemma More(w: World, es: seq<Event>, e: Event) returns (t: World, longer: seq<Event>)
    requires w == RunAll(es) && Numbered(es) && Fits(w, e)
    ensures longer == es + [e] && t == Step(w, e) && t == RunAll(longer) && Numbered(longer)
  {
    hide Step;
    longer := es + [e];
    assert longer[..|es|] == es;
    t := Step(w, e);
  }

  lemma Remembers(es: seq<Event>, e: Event)
    ensures EverOvertakes(es) || Overtakes(RunAll(es), e) ==> EverOvertakes(es + [e])
    ensures EverLate(es) || Late(RunAll(es), e) ==> EverLate(es + [e])
  {
    hide Overtakes, Late, RunAll;
    assert (es + [e])[..|es|] == es;
  }

  const FIRST := Push(None, 0)
  const SECOND := Push(None, 1)

  lemma FlushOfOne()
    ensures Kept(StableSort([FIRST]), NO_VERSION) == [FIRST] && Unversioned([FIRST]) == [FIRST]
  {
    assert [FIRST][..0] == [];
    assert StableSort([FIRST]) == [FIRST];
  }

  lemma FlushOfTwo()
    ensures StableSort([FIRST, SECOND]) == [FIRST, SECOND] && Kept([FIRST, SECOND], NO_VERSION) == [FIRST, SECOND]
  {
    FlushOfOne();
    assert [FIRST, SECOND][..1] == [FIRST];
    assert [FIRST][..0] == [] && StableSort([FIRST]) == [FIRST];
  }

  lemma FlushOfNone()
    ensures Kept(StableSort([]), NO_VERSION) == []
  {}

  /** A connection that is ready, with nothing held. */
  lemma FirstSnapshot() returns (w: World, es: seq<Event>)
    ensures w == RunAll(es) && Numbered(es)
    ensures w == NEW.(ready := true, out := [Response(100)])
  {
    FlushOfNone();
    hide Kept, StableSort;
    w, es := More(NEW, [], Finish(100, NO_VERSION, None));
    assert AsWritten([]) == [] && [Response(100)] + [] == [Response(100)];
  }

  /** A push is held while a second snapshot is in flight, and that is given up. */
  lemma GivenUp() returns (w: World, es: seq<Event>)
    ensures w == RunAll(es) && Numbered(es)
    ensures w == NEW.(ready := true, buffer := [FIRST], out := [Response(100)], arrived := [FIRST])
  {
    w, es := FirstSnapshot();
    hide Sends, RunAll, Numbered;
    w, es := More(w, es, Begin);
    w, es := More(w, es, Arrive(FIRST, false));
    w, es := More(w, es, Abort);
  }

  /** The next push is written at once. */
  lemma Overtaken() returns (w: World, es: seq<Event>)
    ensures w == RunAll(es) && Numbered(es) && EverOvertakes(es)
    ensures w.buffer == [FIRST] && w.out == [Response(100), Pushed(SECOND)]
  {
    var u, before := GivenUp();
    FlushOfOne();
    hide Sends, RunAll, Numbered;
    var e := Arrive(SECOND, false);
    Remembers(before, e);
    assert Overtakes(u, e);
    hide Overtakes;
    w, es := More(u, before, e);
  }

  lemma SecondIsOut()
    ensures Pushes([Response(100), Pushed(SECOND)]) == [SECOND] && Unversioned([SECOND]) == [SECOND]
  {
    PushesOne([Response(100)], Pushed(SECOND));
    PushesOne([], Response(100));
    UnversionedOne(SECOND);
    assert [Response(100)] + [Pushed(SECOND)] == [Response(100), Pushed(SECOND)] && [] + [Response(100)] == [Response(100)];
  }

  /** The next snapshot then writes the held push behind the later one. */
  lemma HeldPushComesLate() returns (es: seq<Event>)
    ensures Numbered(es) && EverOvertakes(es) && EverLate(es)
    ensures Pushes(RunAll(es).out) == [SECOND, FIRST]
  {
    hide Step, Pushes, RunAll, EverOvertakes, EverLate, Overtakes, Late;
    var w, before := Overtaken();
    var e := Finish(101, NO_VERSION, None);
    ComesLate(w, e);
    Remembers(before, e);
    w, es := More(w, before, e);
  }

  lemma ComesLate(w: World, e: Event)
    requires w.buffer == [FIRST] && w.out == [Response(100), Pushed(SECOND)] && e == Finish(101, NO_VERSION, None)
    ensures Late(w, e) && Pushes(Step(w, e).out) == [SECOND, FIRST]
  {
    hide Step, Pushes, Unversioned, Kept, StableSort;
    FlushOfOne();
    SecondIsOut();
    StepWrites(w, e);
    assert Writes(w, e) == [FIRST];
    hide Writes;
    assert UOut(w)[0].body == 1 && Unversioned(Writes(w, e))[0].body == 0;
  }

  lemma HeldBoth() returns (w: World, es: seq<Event>)
    ensures w == RunAll(es) && Numbered(es) && w == NEW.(buffer := [FIRST, SECOND], arrived := [FIRST, SECOND])
  {
    hide Sends;
    w, es := More(NEW, [], Arrive(FIRST, false));
    w, es := More(w, es, Arrive(SECOND, false));
  }

  /** Two pushes are held, and a flush fails between them. */
  lemma FailedBetween() returns (w: World, es: seq<Event>)
    ensures w == RunAll(es) && Numbered(es) && w.partial == multiset{FIRST} && w.flushed == multiset{}
    ensures w.buffer == [FIRST, SECOND] && w.arrived == [FIRST, SECOND]
  {
    var v, before := HeldBoth();
    FlushOfTwo();
    hide Kept, StableSort, AsWritten, RunAll, Numbered;
    var e := Finish(100, NO_VERSION, Some(2));
    assert Writes(v, e) == [FIRST];
    w, es := More(v, before, e);
  }

  /** The next flush writes the first of them again. */
  lemma WrittenTwice() returns (es: seq<Event>)
    ensures multiset(RunAll(es).arrived)[FIRST] == 1 && multiset(Pushes(RunAll(es).out))[FIRST] >= 2
  {
    var w, before := FailedBetween();
    FlushOfTwo();
    hide Kept, StableSort, AsWritten, Pushes, RunAll, Numbered;
    w, es := More(w, before, Finish(100, NO_VERSION, None));
    assert w.flushed[FIRST] == 1 && w.partial[FIRST] == 1;
    WrittenTwiceIff(es, FIRST);
  }

  // ------------------------------------------------------------- the code's own subscription

  function OnWire(out: seq<Written>): seq<nat> {
    seq(|out|, i requires 0 <= i < |out| => if out[i].Response? then out[i].body else out[i].push.body)
  }

  ghost predicate Mirrors(s: ConnectionSubscription, w: World)
    reads s, s.writer
  {
    s.ready == w.ready && s.buffering == w.buffering && s.buffer == w.buffer && s.writer.out == OnWire(w.out)
  }

  lemma FlushOnWire(out: seq<Written>, response: nat, sent: seq<Push>, failAt: Option<nat>)
    ensures var n := Reached(failAt, |sent|);
      var all := [response] + Bodies(sent);
      OnWire(out + (if failAt == Some(0) then [] else [Response(response)]) + AsWritten(sent[..n]))
        == OnWire(out) + if Succeeds(failAt, |sent|) then all else all[..failAt.value]
  {
    var all := [response] + Bodies(sent);
    var written := if Succeeds(failAt, |sent|) then all else all[..failAt.value];
    var n := Reached(failAt, |sent|);
    var more := (if failAt == Some(0) then [] else [Response(response)]) + AsWritten(sent[..n]);
    assert |more| == |written|;
    assert OnWire(more) == written;
    assert out + (if failAt == Some(0) then [] else [Response(response)]) + AsWritten(sent[..n]) == out + more;
  }

  lemma OneOnWire(out: seq<Written>, p: Push)
    ensures OnWire(out + [Pushed(p)]) == OnWire(out) + [p.body]
  {}

  /** There is one delivery and one stable order, so the promises of finishSnapshot leave
      no choice. */
  lemma FlushIsDetermined(buffer: seq<Push>, baseline: Option<Version>, sent: seq<Push>, after: seq<Push>)
    requires AllValidated(buffer)
    ensures Delivery(buffer, baseline, sent) ==> sent == Kept(StableSort(buffer), baseline)
    ensures StablySorted(buffer, after) ==> after == StableSort(buffer)
  {
    SortedKeptIsDelivery(buffer, baseline);
    StableSortSorts(buffer);
    if Delivery(buffer, baseline, sent) { DeliveryOnce(buffer, baseline, sent, Kept(StableSort(buffer), baseline)); }
    if StablySorted(buffer, after) { SortedOnce(after, StableSort(buffer)); }
  }

  /** Every operation of the subscription does what its event says, body for body. */
  method Play(s: ConnectionSubscription, e: Event, ghost w: World)
    requires s.Valid() && Mirrors(s, w) && (e.Arrive? ==> Validated(e.push))
    modifies s, s.writer
    ensures s.Valid() && Mirrors(s, Step(w, e))
  {
    hide Kept, StableSort, AsWritten, Delivery, StablySorted, Reached, OnWire, Suffix, Recent, Unversioned;
    match e
    case Arrive(p, fails) =>
      var ok := s.Enqueue(p, fails);
      OneOnWire(w.out, p);
      assert OnWire(w.out) + [] == OnWire(w.out);
    case Begin => s.BeginSnapshot();
    case Abort => s.AbortSnapshot();
    case Finish(response, baseline, failAt) =>
      var ok := s.FinishSnapshot(response, baseline, failAt);
      ghost var sent := Sends(w, e);
      FlushIsDetermined(w.buffer, baseline, sent, s.buffer);
      FlushOnWire(w.out, response, sent, failAt);
      ghost var written :| Delivery(w.buffer, baseline, written)
        && var all := [response] + Bodies(written);
           && (ok <==> failAt.None? || failAt.value >= |all|)
           && s.writer.out == OnWire(w.out) + if ok then all else all[..failAt.value];
      FlushIsDetermined(w.buffer, baseline, written, s.buffer);
  }
}
