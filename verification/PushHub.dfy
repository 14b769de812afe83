/** One gateway connection: pushes are held back while a snapshot is in flight and
    follow its response, the versioned ones only when newer than the snapshot. */
module PushHub {
  import opened Common

  const MAX_BUFFERED := 256

  datatype Version = Version(epoch: nat, seqNo: nat)

  /** A validated push: a state change carries a version with a positive epoch, every
      other action carries none. */
  datatype Push = Push(version: Option<Version>, body: nat)

  predicate Validated(p: Push) { p.version.Some? ==> p.version.value.epoch >= 1 }

  /** stateVersionAfter: nothing is after no baseline. */
  predicate After(v: Version, baseline: Option<Version>) {
    && baseline.Some?
    && if v.epoch != baseline.value.epoch then v.epoch > baseline.value.epoch else v.seqNo > baseline.value.seqNo
  }

  /** The sort key; the getters of a missing version answer 0. */
  function Key(p: Push): Version { if p.version.Some? then p.version.value else Version(0, 0) }

  predicate Before(a: Version, b: Version) {
    if a.epoch != b.epoch then a.epoch < b.epoch else a.seqNo < b.seqNo
  }

  predicate Ascending(s: seq<Push>) {
    forall i, j :: 0 <= i < j < |s| ==> !Before(Key(s[j]), Key(s[i]))
  }

  function OfKey(s: seq<Push>, k: Version): seq<Push> {
    if s == [] then []
    else OfKey(s[..|s| - 1], k) + if Key(s[|s| - 1]) == k then [s[|s| - 1]] else []
  }

  /** What a stable sort promises: ascending, and pushes with one key keep their order. */
  ghost predicate StablySorted(before: seq<Push>, after: seq<Push>) {
    Ascending(after) && forall k :: OfKey(after, k) == OfKey(before, k)
  }

  function Insert(s: seq<Push>, x: Push): seq<Push> {
    if s == [] || !Before(Key(x), Key(s[|s| - 1])) then s + [x]
    else Insert(s[..|s| - 1], x) + [s[|s| - 1]]
  }

  function StableSort(s: seq<Push>): seq<Push> {
    if s == [] then [] else Insert(StableSort(s[..|s| - 1]), s[|s| - 1])
  }

  lemma OfKeyLast(s: seq<Push>, x: Push, k: Version)
    ensures OfKey(s + [x], k) == OfKey(s, k) + if Key(x) == k then [x] else []
  {
    assert (s + [x])[..|s|] == s;
  }

  lemma {:induction false} OfKeyHas(s: seq<Push>, i: nat)
    requires i < |s|
    ensures OfKey(s, Key(s[i])) != []
  {
    if i < |s| - 1 { OfKeyHas(s[..|s| - 1], i); }
  }

  lemma {:induction false} OfKeyFrom(s: seq<Push>, k: Version)
    ensures forall p :: p in OfKey(s, k) ==> p in s && Key(p) == k
  {
    if s != [] { OfKeyFrom(s[..|s| - 1], k); }
  }

  lemma {:induction false} InsertFrom(s: seq<Push>, x: Push)
    ensures forall p :: p in Insert(s, x) ==> p in s || p == x
    ensures |Insert(s, x)| == |s| + 1
  {
    if s != [] { InsertFrom(s[..|s| - 1], x); }
  }

  lemma {:induction false} InsertAscends(s: seq<Push>, x: Push)
    requires Ascending(s)
    ensures Ascending(Insert(s, x))
  {
    if s != [] && Before(Key(x), Key(s[|s| - 1])) {
      var n := |s| - 1;
      InsertAscends(s[..n], x);
      InsertFrom(s[..n], x);
      var inner := Insert(s[..n], x);
      forall i | 0 <= i < |inner| ensures !Before(Key(s[n]), Key(inner[i])) {
        assert inner[i] in inner;
      }
    }
  }

  lemma {:induction false} InsertOfKey(s: seq<Push>, x: Push, k: Version)
    ensures OfKey(Insert(s, x), k) == OfKey(s, k) + if Key(x) == k then [x] else []
  {
    if s == [] || !Before(Key(x), Key(s[|s| - 1])) {
      OfKeyLast(s, x, k);
    } else {
      var n := |s| - 1;
      InsertOfKey(s[..n], x, k);
      OfKeyLast(Insert(s[..n], x), s[n], k);
    }
  }

  lemma {:induction false} StableSortSorts(s: seq<Push>)
    ensures StablySorted(s, StableSort(s))
    ensures forall p :: p in StableSort(s) ==> p in s
    ensures |StableSort(s)| == |s|
  {
    if s != [] {
      hide Insert, OfKey;
      var n := |s| - 1;
      StableSortSorts(s[..n]);
      var inner := StableSort(s[..n]);
      InsertAscends(inner, s[n]);
      InsertFrom(inner, s[n]);
      assert s == s[..n] + [s[n]];
      forall k ensures OfKey(StableSort(s), k) == OfKey(s, k) {
        InsertOfKey(inner, s[n], k);
        OfKeyLast(s[..n], s[n], k);
      }
    }
  }

  lemma OfKeyButLast(a: seq<Push>, b: seq<Push>, l: Version)
    requires a != [] && b != [] && Key(a[|a| - 1]) == Key(b[|b| - 1]) && OfKey(a, l) == OfKey(b, l)
    ensures OfKey(a[..|a| - 1], l) == OfKey(b[..|b| - 1], l)
  {
    hide OfKey;
    OfKeyStep(a, l);
    OfKeyStep(b, l);
    var x, y := OfKey(a[..|a| - 1], l), OfKey(b[..|b| - 1], l);
    if Key(a[|a| - 1]) == l {
      assert x == OfKey(a, l)[..|x|] && y == OfKey(b, l)[..|y|];
    } else {
      assert x == x + [] && y == y + [];
    }
  }

  lemma OfKeyStep(s: seq<Push>, k: Version)
    requires s != []
    ensures OfKey(s, k) == OfKey(s[..|s| - 1], k) + if Key(s[|s| - 1]) == k then [s[|s| - 1]] else []
  {
  }

  /** There is one stably sorted order, whatever algorithm finds it. */
  lemma {:induction false} SortedOnce(a: seq<Push>, b: seq<Push>)
    requires Ascending(a) && Ascending(b) && forall k :: OfKey(a, k) == OfKey(b, k)
    ensures a == b
  {
    if a != [] && b != [] {
      var m, n := |a| - 1, |b| - 1;
      OfKeyHas(a, m);
      OfKeyHas(b, n);
      OfKeyReach(b, Key(a[m]));
      OfKeyReach(a, Key(b[n]));
      assert Key(a[m]) == Key(b[n]);
      var k := Key(a[m]);
      assert a[m] == OfKey(a, k)[|OfKey(a, k)| - 1];
      assert b[n] == OfKey(b, k)[|OfKey(b, k)| - 1];
      forall l ensures OfKey(a[..m], l) == OfKey(b[..n], l) {
        OfKeyButLast(a, b, l);
      }
      SortedOnce(a[..m], b[..n]);
    } else if a != [] {
      OfKeyHas(a, 0);
    } else if b != [] {
      OfKeyHas(b, 0);
    }
  }

  lemma OfKeyReach(s: seq<Push>, k: Version)
    requires OfKey(s, k) != []
    ensures exists i :: 0 <= i < |s| && Key(s[i]) == k
  {
    OfKeyFrom(s, k);
    assert OfKey(s, k)[0] in s;
  }

  // ------------------------------------------------------------- what is delivered

  function Unversioned(s: seq<Push>): (r: seq<Push>)
    ensures |r| <= |s|
  {
    if s == [] then [] else Unversioned(s[..|s| - 1]) + if s[|s| - 1].version.None? then [s[|s| - 1]] else []
  }

  predicate Keeps(p: Push, baseline: Option<Version>) { p.version.None? || After(p.version.value, baseline) }

  function Newer(s: seq<Push>, baseline: Option<Version>): seq<Push> {
    if s == [] then []
    else Newer(s[..|s| - 1], baseline)
         + if s[|s| - 1].version.Some? && Keeps(s[|s| - 1], baseline) then [s[|s| - 1]] else []
  }

  function Kept(s: seq<Push>, baseline: Option<Version>): seq<Push> {
    if s == [] then [] else Kept(s[..|s| - 1], baseline) + if Keeps(s[|s| - 1], baseline) then [s[|s| - 1]] else []
  }

  function Bodies(s: seq<Push>): seq<nat> { seq(|s|, i requires 0 <= i < |s| => s[i].body) }

  predicate AllValidated(s: seq<Push>) { forall i :: 0 <= i < |s| ==> Validated(s[i]) }

  /** The promise: the unversioned pushes in arrival order, then the versioned ones that
      are newer than the snapshot, every one of them, ascending. */
  ghost predicate Delivery(buffer: seq<Push>, baseline: Option<Version>, sent: seq<Push>) {
    exists newer ::
      && sent == Unversioned(buffer) + newer && Ascending(newer)
      && forall k :: OfKey(newer, k) == if k.epoch >= 1 && After(k, baseline) then OfKey(buffer, k) else []
  }

  lemma {:induction false} UnversionedIsKeyZero(s: seq<Push>)
    requires AllValidated(s)
    ensures Unversioned(s) == OfKey(s, Version(0, 0))
  {
    if s != [] { UnversionedIsKeyZero(s[..|s| - 1]); }
  }

  lemma {:induction false} AllUnversioned(s: seq<Push>, baseline: Option<Version>)
    requires forall i :: 0 <= i < |s| ==> s[i].version.None?
    ensures Newer(s, baseline) == []
  {
    if s != [] { AllUnversioned(s[..|s| - 1], baseline); }
  }

  lemma {:induction false} KeptSplits(s: seq<Push>, baseline: Option<Version>)
    requires Ascending(s) && AllValidated(s)
    ensures Kept(s, baseline) == Unversioned(s) + Newer(s, baseline)
  {
    if s != [] {
      var n := |s| - 1;
      KeptSplits(s[..n], baseline);
      if s[n].version.None? {
        forall i | 0 <= i < n ensures s[..n][i].version.None? {
          assert !Before(Key(s[n]), Key(s[i]));
        }
        AllUnversioned(s[..n], baseline);
      }
    }
  }

  lemma {:induction false} NewerIsAscending(s: seq<Push>, baseline: Option<Version>)
    requires Ascending(s)
    ensures Ascending(Newer(s, baseline)) && forall p :: p in Newer(s, baseline) ==> p in s
  {
    if s != [] {
      var n := |s| - 1;
      NewerIsAscending(s[..n], baseline);
      var inner := Newer(s[..n], baseline);
      forall i | 0 <= i < |inner| ensures !Before(Key(s[n]), Key(inner[i])) {
        assert inner[i] in inner && inner[i] in s[..n];
      }
    }
  }

  lemma {:induction false} NewerOfKey(s: seq<Push>, baseline: Option<Version>, k: Version)
    requires AllValidated(s)
    ensures OfKey(Newer(s, baseline), k) == if k.epoch >= 1 && After(k, baseline) then OfKey(s, k) else []
  {
    if s != [] {
      var n := |s| - 1;
      NewerOfKey(s[..n], baseline, k);
      assert Validated(s[n]);
      if s[n].version.Some? && Keeps(s[n], baseline) {
        OfKeyLast(Newer(s[..n], baseline), s[n], k);
        assert Newer(s, baseline) == Newer(s[..n], baseline) + [s[n]];
      } else {
        assert Newer(s, baseline) == Newer(s[..n], baseline);
      }
    }
  }

  /** Sorting the buffer and dropping what the snapshot covers delivers the promise. */
  lemma SortedKeptIsDelivery(buffer: seq<Push>, baseline: Option<Version>)
    requires AllValidated(buffer)
    ensures Delivery(buffer, baseline, Kept(StableSort(buffer), baseline))
  {
    hide StableSort, Kept, Newer, Unversioned, OfKey, Ascending;
    var sorted := StableSort(buffer);
    StableSortSorts(buffer);
    forall i | 0 <= i < |sorted| ensures Validated(sorted[i]) { assert sorted[i] in buffer; }
    KeptSplits(sorted, baseline);
    UnversionedIsKeyZero(buffer);
    UnversionedIsKeyZero(sorted);
    var newer := Newer(sorted, baseline);
    NewerIsAscending(sorted, baseline);
    forall k ensures OfKey(newer, k) == if k.epoch >= 1 && After(k, baseline) then OfKey(buffer, k) else [] {
      NewerOfKey(sorted, baseline, k);
    }
  }

  /** The promise leaves one possible delivery. */
  lemma DeliveryOnce(buffer: seq<Push>, baseline: Option<Version>, x: seq<Push>, y: seq<Push>)
    requires Delivery(buffer, baseline, x) && Delivery(buffer, baseline, y)
    ensures x == y
  {
    var u := Unversioned(buffer);
    var a :| x == u + a && Ascending(a)
      && forall k :: OfKey(a, k) == if k.epoch >= 1 && After(k, baseline) then OfKey(buffer, k) else [];
    var b :| y == u + b && Ascending(b)
      && forall k :: OfKey(b, k) == if k.epoch >= 1 && After(k, baseline) then OfKey(buffer, k) else [];
    SortedOnce(a, b);
  }

  // ------------------------------------------------------------- the buffer's history

  function Recent(s: seq<Push>): seq<Push> { if |s| <= MAX_BUFFERED then s else s[|s| - MAX_BUFFERED..] }

  predicate Suffix(x: seq<Push>, y: seq<Push>) { |x| <= |y| && y[|y| - |x|..] == x }

  function Appended(buffer: seq<Push>, p: Push): seq<Push> {
    (if |buffer| == MAX_BUFFERED then buffer[1..] else buffer) + [p]
  }

  lemma {:induction false} UnversionedTail(s: seq<Push>)
    requires s != []
    ensures Unversioned(s) == (if s[0].version.None? then [s[0]] else []) + Unversioned(s[1..])
  {
    var n := |s| - 1;
    if n > 0 {
      UnversionedTail(s[..n]);
      assert s[..n][1..] == s[1..][..n - 1];
    }
  }

  lemma UnversionedLast(s: seq<Push>, p: Push)
    ensures Unversioned(s + [p]) == Unversioned(s) + if p.version.None? then [p] else []
  {
    assert (s + [p])[..|s|] == s;
  }

  lemma AppendedKeeps(buffer: seq<Push>, arrived: seq<Push>, p: Push)
    requires Suffix(Unversioned(buffer), Unversioned(arrived)) && |buffer| <= MAX_BUFFERED
    ensures Suffix(Unversioned(Appended(buffer, p)), Unversioned(arrived + [p]))
    ensures buffer == Recent(arrived) ==> Appended(buffer, p) == Recent(arrived + [p])
  {
    hide Unversioned, Suffix;
    var rest := if |buffer| == MAX_BUFFERED then buffer[1..] else buffer;
    UnversionedLast(arrived, p);
    UnversionedLast(rest, p);
    if |buffer| == MAX_BUFFERED {
      UnversionedTail(buffer);
      SuffixShrinks(if buffer[0].version.None? then [buffer[0]] else [], Unversioned(rest), Unversioned(arrived));
    }
    SuffixGrows(Unversioned(rest), Unversioned(arrived), if p.version.None? then [p] else []);
    RecentGrows(arrived, p);
  }

  lemma SuffixShrinks(a: seq<Push>, x: seq<Push>, y: seq<Push>)
    requires Suffix(a + x, y)
    ensures Suffix(x, y)
  {
    assert y[|y| - |x|..] == y[|y| - |a + x|..][|a|..];
  }

  lemma SuffixGrows(x: seq<Push>, y: seq<Push>, z: seq<Push>)
    requires Suffix(x, y)
    ensures Suffix(x + z, y + z)
  {
  }

  lemma RecentGrows(arrived: seq<Push>, p: Push)
    ensures Appended(Recent(arrived), p) == Recent(arrived + [p])
  {
  }

  /** The connection, and whether a write to it succeeds is up to the environment. */
  class Writer {
    var out: seq<nat>

    constructor ()
      ensures out == []
    {
      out := [];
    }

    method Write(body: nat, fails: bool) returns (ok: bool)
      modifies this
      ensures ok == !fails && out == old(out) + if ok then [body] else []
    {
      if fails { return false; }
      out := out + [body];
      return true;
    }

    /** writeBatch; the write of the body at `failAt` fails. */
    method WriteBatch(bodies: seq<nat>, failAt: Option<nat>) returns (ok: bool)
      modifies this
      ensures ok <==> failAt.None? || failAt.value >= |bodies|
      ensures out == old(out) + if ok then bodies else bodies[..failAt.value]
    {
      var i := 0;
      while i < |bodies|
        invariant i <= |bodies| && out == old(out) + bodies[..i]
        invariant failAt.Some? ==> i <= failAt.value
      {
        ok := Write(bodies[i], failAt == Some(i));
        if !ok { return false; }
        assert bodies[..i + 1] == bodies[..i] + [bodies[i]];
        i := i + 1;
      }
      assert bodies[..i] == bodies;
      return true;
    }
  }

  class ConnectionSubscription {
    const writer: Writer
    var ready: bool
    var buffering: bool
    var buffer: seq<Push>

    /** The pushes held back since the last flush, and whether a flush failed since. */
    ghost var arrived: seq<Push>
    ghost var clean: bool

    /** The buffer is the most recent 256 pushes held back, unless a flush failed: then
        it is sorted, and later drops take from its front. In any case the unversioned
        pushes are the most recent ones, in arrival order. */
    ghost predicate Valid()
      reads this
    {
      && |buffer| <= MAX_BUFFERED && AllValidated(buffer)
      && (clean ==> buffer == Recent(arrived))
      && Suffix(Unversioned(buffer), Unversioned(arrived))
    }

    constructor (writer: Writer)
      ensures Valid() && clean && arrived == [] && !ready && !buffering && this.writer == writer
    {
      this.writer := writer;
      ready, buffering, buffer := false, false, [];
      arrived, clean := [], true;
    }

    method Enqueue(p: Push, fails: bool) returns (ok: bool)
      requires Valid() && Validated(p)
      modifies this, writer
      ensures Valid() && ready == old(ready) && buffering == old(buffering) && clean == old(clean)
      ensures !ready || buffering ==> (
        && ok && writer.out == old(writer.out)
        && buffer == (if |old(buffer)| == 256 then old(buffer)[1..] else old(buffer)) + [p]
        && arrived == old(arrived) + [p])
      ensures ready && !buffering ==> (
        && buffer == old(buffer) && arrived == old(arrived) && ok == !fails
        && writer.out == old(writer.out) + if ok then [p.body] else [])
    {
      hide Unversioned, Suffix, Recent;
      if !ready || buffering {
        AppendedKeeps(buffer, arrived, p);
        arrived := arrived + [p];
        if |buffer| == MAX_BUFFERED { buffer := buffer[1..]; }
        buffer := buffer + [p];
        return true;
      }
      ok := writer.Write(p.body, fails);
    }

    method BeginSnapshot()
      requires Valid()
      modifies this
      ensures Valid() && buffering && ready == old(ready)
      ensures buffer == old(buffer) && arrived == old(arrived) && clean == old(clean)
    {
      buffering := true;
    }

    method AbortSnapshot()
      requires Valid()
      modifies this
      ensures Valid() && !buffering && ready == old(ready)
      ensures buffer == old(buffer) && arrived == old(arrived) && clean == old(clean)
    {
      buffering := false;
    }

    /** finishSnapshot: on success the response, then the promised pushes; the buffer is
        empty and pushes flow again. On failure the connection got a prefix of that, the
        flags are as before and the same pushes are still held. */
    method FinishSnapshot(response: nat, baseline: Option<Version>, failAt: Option<nat>) returns (ok: bool)
      requires Valid()
      modifies this, writer
      ensures Valid()
      ensures exists sent :: (
        && Delivery(old(buffer), baseline, sent)
        && var all := [response] + Bodies(sent);
           && (ok <==> failAt.None? || failAt.value >= |all|)
           && writer.out == old(writer.out) + if ok then all else all[..failAt.value])
      ensures ok ==> ready && !buffering && buffer == [] && arrived == [] && clean
      ensures !ok ==> ready == old(ready) && buffering == old(buffering) && arrived == old(arrived)
      ensures !ok ==> StablySorted(old(buffer), buffer)
    {
      hide StableSort, Kept, Delivery, StablySorted, Unversioned;
      ghost var held := buffer;
      StableSortSorts(buffer);
      SortedKeptIsDelivery(buffer, baseline);
      SortKeepsValid(buffer, arrived);
      buffer, clean := StableSort(buffer), false;
      var bodies := Collect(response, baseline);
      ghost var sent := Kept(StableSort(held), baseline);
      ok := writer.WriteBatch(bodies, failAt);
      if !ok { return; }
      UnversionedNone();
      buffer, ready, buffering := [], true, false;
      arrived, clean := [], true;
    }

    /** The loop that picks the bodies to write. */
    method Collect(response: nat, baseline: Option<Version>) returns (bodies: seq<nat>)
      ensures bodies == [response] + Bodies(Kept(buffer, baseline))
    {
      bodies := [response];
      var i := 0;
      assert Bodies(Kept([], baseline)) == [];
      assert buffer[..0] == [];
      while i < |buffer|
        invariant i <= |buffer| && bodies == [response] + Bodies(Kept(buffer[..i], baseline))
      {
        var push := buffer[i];
        assert buffer[..i + 1][..i] == buffer[..i];
        if push.version.None? || After(push.version.value, baseline) {
          bodies := bodies + [push.body];
          assert Bodies(Kept(buffer[..i], baseline) + [push]) == Bodies(Kept(buffer[..i], baseline)) + [push.body];
        }
        i := i + 1;
      }
      assert buffer[..i] == buffer;
    }
  }

  lemma UnversionedNone()
    ensures Suffix(Unversioned([]), Unversioned([]))
  {
  }

  lemma SortKeepsValid(buffer: seq<Push>, arrived: seq<Push>)
    requires AllValidated(buffer) && Suffix(Unversioned(buffer), Unversioned(arrived))
    ensures AllValidated(StableSort(buffer)) && Suffix(Unversioned(StableSort(buffer)), Unversioned(arrived))
  {
    hide StableSort, Unversioned, OfKey;
    StableSortSorts(buffer);
    var sorted := StableSort(buffer);
    forall i | 0 <= i < |sorted| ensures Validated(sorted[i]) { assert sorted[i] in buffer; }
    UnversionedIsKeyZero(buffer);
    UnversionedIsKeyZero(sorted);
  }

  /** With at most 256 pushes held back since the last flush nothing is lost: the
      delivery is the promise for all that arrived. With more, it still is exactly when
      every dropped push is versioned and covered by the snapshot. */
  lemma NothingNeededIsLostIff(arrived: seq<Push>, baseline: Option<Version>)
    requires AllValidated(arrived)
    ensures Delivery(arrived, baseline, Kept(StableSort(Recent(arrived)), baseline)) <==>
      forall i :: 0 <= i < |arrived| - 256 ==> !Keeps(arrived[i], baseline)
  {
    hide StableSort, Kept, Delivery;
    var recent := Recent(arrived);
    SortedKeptIsDelivery(recent, baseline);
    SortedKeptIsDelivery(arrived, baseline);
    var n := |arrived| - |recent|;
    assert arrived == arrived[..n] + recent;
    KeptLength(arrived, baseline);
    KeptLength(recent, baseline);
    KeptCount(arrived[..n], recent, baseline);
    if forall i :: 0 <= i < n ==> !Keeps(arrived[i], baseline) {
      CoveredChangesNothing(arrived[..n], recent, baseline, Kept(StableSort(recent), baseline));
    } else {
      if Delivery(arrived, baseline, Kept(StableSort(recent), baseline)) {
        DeliveryOnce(arrived, baseline, Kept(StableSort(recent), baseline), Kept(StableSort(arrived), baseline));
        var i :| 0 <= i < n && Keeps(arrived[i], baseline);
        KeptSome(arrived[..n], i, baseline);
      }
    }
  }

  /** Sorting does not change how many pushes are kept. */
  lemma KeptLength(s: seq<Push>, baseline: Option<Version>)
    requires AllValidated(s)
    ensures |Kept(StableSort(s), baseline)| == |Kept(s, baseline)|
    decreases |s|
  {
    if s != [] {
      var n := |s| - 1;
      KeptLength(s[..n], baseline);
      KeptInsert(StableSort(s[..n]), s[n], baseline);
    }
  }

  lemma KeptLast(s: seq<Push>, x: Push, baseline: Option<Version>)
    ensures Kept(s + [x], baseline) == Kept(s, baseline) + if Keeps(x, baseline) then [x] else []
  {
    assert (s + [x])[..|s|] == s;
  }

  lemma {:induction false} KeptInsert(s: seq<Push>, x: Push, baseline: Option<Version>)
    ensures |Kept(Insert(s, x), baseline)| == |Kept(s, baseline)| + if Keeps(x, baseline) then 1 else 0
  {
    hide Keeps, Before;
    if s == [] || !Before(Key(x), Key(s[|s| - 1])) {
      KeptLast(s, x, baseline);
    } else {
      var n := |s| - 1;
      KeptInsert(s[..n], x, baseline);
      KeptLast(Insert(s[..n], x), s[n], baseline);
    }
  }

  lemma {:induction false} KeptCount(a: seq<Push>, b: seq<Push>, baseline: Option<Version>)
    ensures Kept(a + b, baseline) == Kept(a, baseline) + Kept(b, baseline)
    decreases |b|
  {
    if b == [] {
      assert a + b == a;
    } else {
      assert (a + b)[..|a + b| - 1] == a + b[..|b| - 1];
      KeptCount(a, b[..|b| - 1], baseline);
    }
  }

  lemma {:induction false} KeptSome(s: seq<Push>, i: nat, baseline: Option<Version>)
    requires i < |s| && Keeps(s[i], baseline)
    ensures Kept(s, baseline) != []
  {
    if i < |s| - 1 { KeptSome(s[..|s| - 1], i, baseline); }
  }

  lemma CoveredChangesNothing(dropped: seq<Push>, recent: seq<Push>, baseline: Option<Version>, sent: seq<Push>)
    requires Delivery(recent, baseline, sent)
    requires forall i :: 0 <= i < |dropped| ==> !Keeps(dropped[i], baseline)
    ensures Delivery(dropped + recent, baseline, sent)
  {
    var newer :| sent == Unversioned(recent) + newer && Ascending(newer)
      && forall k :: OfKey(newer, k) == if k.epoch >= 1 && After(k, baseline) then OfKey(recent, k) else [];
    CoveredUnversioned(dropped, recent, baseline);
    forall k | After(k, baseline) ensures OfKey(dropped + recent, k) == OfKey(recent, k) {
      CoveredOfKey(dropped, recent, baseline, k);
    }
  }

  lemma {:induction false} CoveredUnversioned(dropped: seq<Push>, recent: seq<Push>, baseline: Option<Version>)
    requires forall i :: 0 <= i < |dropped| ==> !Keeps(dropped[i], baseline)
    ensures Unversioned(dropped + recent) == Unversioned(recent)
    decreases |dropped|
  {
    if dropped == [] {
      assert dropped + recent == recent;
    } else {
      UnversionedTail(dropped + recent);
      assert (dropped + recent)[1..] == dropped[1..] + recent;
      CoveredUnversioned(dropped[1..], recent, baseline);
    }
  }

  lemma {:induction false} CoveredOfKey(dropped: seq<Push>, recent: seq<Push>, baseline: Option<Version>, k: Version)
    requires After(k, baseline) && forall i :: 0 <= i < |dropped| ==> !Keeps(dropped[i], baseline)
    ensures OfKey(dropped + recent, k) == OfKey(recent, k)
    decreases |recent|
  {
    if recent == [] {
      assert dropped + recent == dropped;
      if OfKey(dropped, k) != [] { OfKeyReach(dropped, k); }
    } else {
      assert (dropped + recent)[..|dropped + recent| - 1] == dropped + recent[..|recent| - 1];
      CoveredOfKey(dropped, recent[..|recent| - 1], baseline, k);
    }
  }
}
