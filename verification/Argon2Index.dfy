/** Where Argon2id looks. The code computes the memory layout and the reference
    positions in 32 and 64 bit unsigned arithmetic, which wraps; section 3.4 of RFC
    9106 computes them in the integers. The module finds exactly when the two agree
    and shows that a reference is then always a block that is already filled. */
module Argon2Index {
  import opened Bytes

  const U32: nat := 0x1_0000_0000
  const U64: nat := 0x1_0000_0000_0000_0000

  function Wrap32(x: int): uint32 { x % U32 }
  function Wrap64(x: int): uint64 { x % U64 }

  // ------------------------------------------------------ non-linear helpers

  lemma MulMono(a: nat, b: nat, c: nat)
    requires a <= b
    ensures a * c <= b * c
  {
    assert (b - a) * c >= 0;
  }

  lemma MulStrict(a: nat, b: nat, c: nat)
    requires a < b && c > 0
    ensures a * c < b * c
  {
    MulMono(1, b - a, c);
    assert (b - a) * c == b * c - a * c;
  }

  lemma DivBy(a: nat, b: nat)
    requires b > 0
    ensures 0 <= a / b && a / b * b <= a < a / b * b + b
  {}

  lemma DivExact(a: nat, b: nat)
    requires b > 0
    ensures a * b / b == a && a * b % b == 0
  {
    var q := a * b / b;
    DivBy(a * b, b);
    if q < a { MulMono(q + 1, a, b); }
  }

  // ------------------------------------------------------------- geometry

  datatype Geometry = Geometry(memory: nat, laneLen: nat, segmentLen: nat)

  datatype Layout = Panics | Fits(g: Geometry)

  /** argon2idKey's rounding of the requested memory, in wrapping arithmetic. */
  function Rounded(threads: uint32, memory: uint32): Layout
    requires threads > 0
  {
    var four := Wrap32(4 * threads);
    if four == 0 then Panics
    else
      var whole := Wrap32(memory / four * four);
      var eight := Wrap32(8 * threads);
      Laid(if whole < eight then eight else whole, threads)
  }

  function Laid(used: uint32, threads: uint32): Layout
    requires threads > 0
  {
    DivBy(used, threads);
    Fits(Geometry(used, used / threads, used / threads / 4))
  }

  /** Four equal segments of at least two blocks in every lane, and nothing wraps. */
  predicate Regular(g: Geometry, threads: uint32) {
    && threads > 0
    && g.segmentLen >= 2
    && g.laneLen == 4 * g.segmentLen
    && g.memory == threads * g.laneLen
    && g.memory < U32
  }

  /** The layout is regular exactly when 8*threads fits in 32 bits: past that the
      multiplications wrap and segments shrink below two blocks, or the division by
      4*threads panics. */
  lemma RegularIff(threads: uint32, memory: uint32)
    requires threads > 0
    ensures (Rounded(threads, memory).Fits? && Regular(Rounded(threads, memory).g, threads))
      <==> threads < 0x2000_0000
  {
    if threads < 0x2000_0000 {
      SmallThreads(threads, memory);
    } else {
      var r := Rounded(threads, memory);
      if r.Fits? {
        var m := r.g.memory;
        DivBy(m, threads);
        if m / threads >= 8 {
          MulMono(8, m / threads, threads);
          assert false;
        }
      }
    }
  }

  lemma SmallThreads(threads: uint32, memory: uint32)
    requires 0 < threads < 0x2000_0000
    ensures Rounded(threads, memory).Fits? && Regular(Rounded(threads, memory).g, threads)
  {
    var four := 4 * threads;
    assert Wrap32(four) == four && Wrap32(8 * threads) == 8 * threads;
    var q := memory / four;
    DivBy(memory, four);
    assert Wrap32(q * four) == q * four;
    var k := if q * four < 8 * threads then 2 else q;
    if q * four >= 8 * threads && q < 2 {
      MulMono(q, 1, four);
      assert false;
    }
    var used := k * four;
    assert used == (4 * k) * threads by { assert k * (4 * threads) == (4 * k) * threads; }
    DivExact(4 * k, threads);
    assert Rounded(threads, memory) == Laid(used, threads);
    assert used / threads == 4 * k;
  }

  // ------------------------------------------------------------- reference index

  /** The size of the reference set, as the code computes it. */
  function CodeArea(pass: uint32, slice: uint32, index: uint32, same: bool, g: Geometry): uint32 {
    if pass == 0 then
      if slice == 0 then Wrap32(index - 1)
      else if same then Wrap32(Wrap32(slice * g.segmentLen) + index - 1)
      else if index == 0 then Wrap32(Wrap32(slice * g.segmentLen) - 1)
      else Wrap32(slice * g.segmentLen)
    else if same then Wrap32(g.laneLen - g.segmentLen + index - 1)
    else if index == 0 then Wrap32(g.laneLen - g.segmentLen - 1)
    else Wrap32(g.laneLen - g.segmentLen)
  }

  /** The offset into the reference set: relative, in the code. */
  function CodeOffset(area: uint32, pseudo: uint64): uint64 {
    var j1 := pseudo % U32;
    var x := Wrap64(j1 * j1) / U32;
    Wrap64(Wrap32(area - 1) - Wrap64(area * x) / U32)
  }

  /** argonReferenceIndex, in wrapping arithmetic. */
  function ReferenceIndex(
    pass: uint32, slice: uint32, index: uint32, pseudo: uint64, same: bool, g: Geometry): int
    requires g.laneLen > 0
  {
    var start := if pass == 0 then 0 else Wrap32(Wrap32(slice + 1) * g.segmentLen) % g.laneLen;
    Wrap32(start + Wrap32(CodeOffset(CodeArea(pass, slice, index, same, g), pseudo))) % g.laneLen
  }

  /** The reference set of section 3.4.2 of RFC 9106 counted in the integers: the
      finished segments of the lane, plus the blocks of the current segment when the
      lane is the current one, without the immediately preceding block. */
  function Area(pass: nat, slice: nat, index: nat, same: bool, segmentLen: nat): int {
    var finished := if pass == 0 then slice * segmentLen else 3 * segmentLen;
    if same then finished + index - 1
    else if index == 0 then finished - 1
    else finished
  }

  function RfcOffset(area: int, pseudo: uint64): int {
    var j1 := pseudo % U32;
    area - 1 - area * (j1 * j1 / U32) / U32
  }

  function RfcStart(pass: nat, slice: nat, g: Geometry): nat {
    if pass == 0 || slice == 3 then 0 else (slice + 1) * g.segmentLen
  }

  /** The mapping of section 3.4.2 in the integers. */
  function RfcIndex(
    pass: nat, slice: nat, index: nat, pseudo: uint64, same: bool, g: Geometry): int
    requires g.laneLen > 0
  {
    (RfcStart(pass, slice, g) + RfcOffset(Area(pass, slice, index, same, g.segmentLen), pseudo)) % g.laneLen
  }

  /** A position the fill loop visits: the first two blocks of a lane come from the
      seed and are skipped in pass zero, where slice zero looks at its own lane only. */
  predicate Visits(pass: uint32, slice: uint32, index: uint32, same: bool, g: Geometry) {
    slice < 4 && index < g.segmentLen && (pass == 0 && slice == 0 ==> index >= 2 && same)
  }

  lemma Bounded(a: nat, b: nat, c: nat, d: nat)
    requires a < c && b < d
    ensures a * b < c * d
  {
    MulMono(a, c, b);
    MulStrict(b, d, c);
    assert c * b == b * c && c * d == d * c;
  }

  lemma Square(j: uint32)
    ensures 0 <= j * j < U64 && 0 <= j * j / U32 < U32
  {
    Bounded(j, j, U32, U32);
    var s := j * j;
    assert 0 <= s < U64;
    assert s / U32 < U32;
  }

  lemma Scaled(area: uint32, x: uint32)
    requires area >= 1
    ensures 0 <= area * x < U64 && 0 <= area * x / U32 <= area - 1
  {
    Bounded(area, x, U32, U32);
    MulStrict(x, U32, area);
    var s := area * x;
    assert s == x * area;
    assert 0 <= s < U32 * area;
    assert s / U32 < area;
  }

  /** The weighted offset stays inside a non-empty area; `area - 1` does not underflow
      and no product needs more than 64 bits. */
  lemma OffsetInRange(area: uint32, pseudo: uint64)
    requires area >= 1
    ensures 0 <= RfcOffset(area, pseudo) <= area - 1
    ensures CodeOffset(area, pseudo) == RfcOffset(area, pseudo)
  {
    var j1 := pseudo % U32;
    Square(j1);
    var x := j1 * j1 / U32;
    Scaled(area, x);
    var y := area * x / U32;
    var jj := j1 * j1;
    var ax := area * x;
    assert Wrap64(jj) == jj;
    assert Wrap64(ax) == ax;
    assert Wrap32(area - 1) == area - 1;
    assert Wrap64(area - 1 - y) == area - 1 - y;
  }

  /** A multiple of the segment length, for the four slices there are. */
  lemma Slices(slice: nat, n: nat)
    requires slice < 4
    ensures slice * n == (if slice == 0 then 0 else if slice == 1 then n else if slice == 2 then 2 * n else 3 * n)
    ensures (slice + 1) * n == slice * n + n
  {
    assert slice == 0 || slice == 1 || slice == 2 || slice == 3;
  }

  lemma LaneFits(g: Geometry, threads: uint32)
    requires Regular(g, threads)
    ensures g.laneLen < U32
  {
    MulMono(1, threads, g.laneLen);
  }

  lemma StartBounds(pass: uint32, slice: uint32, g: Geometry, threads: uint32)
    requires Regular(g, threads) && slice < 4
    ensures pass == 0 ==> RfcStart(pass, slice, g) == 0
    ensures RfcStart(pass, slice, g) <= 3 * g.segmentLen
    ensures Wrap32(Wrap32(slice + 1) * g.segmentLen) % g.laneLen == if slice == 3 then 0 else (slice + 1) * g.segmentLen
  {
    LaneFits(g, threads);
    var n := g.segmentLen;
    Slices(slice, n);
    assert Wrap32(slice + 1) == slice + 1;
    var next := (slice + 1) * n;
    assert Wrap32(next) == next;
    if slice == 3 { Reduced(g.laneLen, 0); } else { Reduced(g.laneLen, next); }
  }

  lemma AreaBounds(pass: uint32, slice: uint32, index: uint32, same: bool, g: Geometry, threads: uint32)
    requires Regular(g, threads) && Visits(pass, slice, index, same, g)
    ensures 1 <= Area(pass, slice, index, same, g.segmentLen) <= 4 * g.segmentLen - 2
    ensures CodeArea(pass, slice, index, same, g) == Area(pass, slice, index, same, g.segmentLen)
  {
    LaneFits(g, threads);
    Slices(slice, g.segmentLen);
    var done := slice * g.segmentLen;
    assert done <= 3 * g.segmentLen && (slice > 0 ==> done >= g.segmentLen);
    AreaCases(pass, slice, index, same, g, done);
  }

  /** The wrapping subtractions one by one, with the finished part named. */
  lemma AreaCases(pass: uint32, slice: uint32, index: uint32, same: bool, g: Geometry, done: nat)
    requires g.segmentLen >= 2 && g.laneLen == 4 * g.segmentLen < U32
    requires Visits(pass, slice, index, same, g)
    requires done == slice * g.segmentLen && done <= 3 * g.segmentLen && (slice > 0 ==> done >= g.segmentLen)
    ensures 1 <= Area(pass, slice, index, same, g.segmentLen) <= 4 * g.segmentLen - 2
    ensures CodeArea(pass, slice, index, same, g) == Area(pass, slice, index, same, g.segmentLen)
  {
    assert Wrap32(done) == done;
    if pass == 0 && slice == 0 {
      assert done == 0;
    }
  }

  /** Whatever wraps, the reference is a column of the lane. */
  lemma ReferenceInLane(
    pass: uint32, slice: uint32, index: uint32, pseudo: uint64, same: bool, g: Geometry, threads: uint32)
    requires Regular(g, threads)
    ensures g.laneLen > 0 && 0 <= ReferenceIndex(pass, slice, index, pseudo, same, g) < g.laneLen < U32
  {
    LaneFits(g, threads);
  }

  /** The position before the final reduction still fits in 32 bits. */
  predicate Roomy(g: Geometry) { 7 * g.segmentLen - 3 < U32 }

  /** Nothing underflows and nothing overflows: the wrapping code computes the
      standard's formula. */
  lemma CodeIsRfc(
    pass: uint32, slice: uint32, index: uint32, pseudo: uint64, same: bool, g: Geometry, threads: uint32)
    requires Regular(g, threads) && Visits(pass, slice, index, same, g) && Roomy(g)
    ensures ReferenceIndex(pass, slice, index, pseudo, same, g) == RfcIndex(pass, slice, index, pseudo, same, g)
  {
    hide Area, CodeArea, RfcOffset, CodeOffset, Wrap32, RfcStart;
    StartBounds(pass, slice, g, threads);
    StartIsRfc(pass, slice, g, threads);
    AreaBounds(pass, slice, index, same, g, threads);
    var area := Area(pass, slice, index, same, g.segmentLen);
    OffsetInRange(area, pseudo);
    NoWrap(RfcOffset(area, pseudo));
    NoWrap(RfcStart(pass, slice, g) + RfcOffset(area, pseudo));
  }

  lemma NoWrap(x: int)
    requires 0 <= x < U32
    ensures Wrap32(x) == x
  {}

  /** The code's start position is the standard's. */
  lemma StartIsRfc(pass: uint32, slice: uint32, g: Geometry, threads: uint32)
    requires Regular(g, threads) && slice < 4
    ensures (if pass == 0 then 0 else Wrap32(Wrap32(slice + 1) * g.segmentLen) % g.laneLen) == RfcStart(pass, slice, g)
  {
    hide Wrap32;
    StartBounds(pass, slice, g, threads);
  }

  /** The room is needed: with longer segments the sum in slice two of a later pass
      wraps and the code leaves the standard's sequence. */
  lemma CodeIsRfcIff(g: Geometry, threads: uint32)
    requires Regular(g, threads)
    ensures Roomy(g) <==> (forall pass: uint32, slice: uint32, index: uint32, pseudo: uint64, same: bool ::
      Visits(pass, slice, index, same, g) ==>
        ReferenceIndex(pass, slice, index, pseudo, same, g) == RfcIndex(pass, slice, index, pseudo, same, g))
  {
    if Roomy(g) {
      forall pass: uint32, slice: uint32, index: uint32, pseudo: uint64, same: bool
        | Visits(pass, slice, index, same, g)
        ensures ReferenceIndex(pass, slice, index, pseudo, same, g) == RfcIndex(pass, slice, index, pseudo, same, g)
      {
        CodeIsRfc(pass, slice, index, pseudo, same, g, threads);
      }
    } else {
      LaneFits(g, threads);
      assert Visits(1, 2, g.segmentLen - 1, true, g);
      WrapsPastRoom(g, threads);
    }
  }

  lemma WrapsPastRoom(g: Geometry, threads: uint32)
    requires Regular(g, threads) && !Roomy(g)
    ensures g.segmentLen - 1 < U32
    ensures ReferenceIndex(1, 2, g.segmentLen - 1, 0, true, g) != RfcIndex(1, 2, g.segmentLen - 1, 0, true, g)
  {
    LaneFits(g, threads);
    RfcPastRoom(g);
    CodePastRoom(g, threads);
    hide ReferenceIndex, RfcIndex;
  }

  /** The last visit of slice two with a zero pseudo-random word, in the integers. */
  lemma RfcPastRoom(g: Geometry)
    requires g.segmentLen >= 2 && g.laneLen == 4 * g.segmentLen < U32
    ensures RfcIndex(1, 2, g.segmentLen - 1, 0, true, g) == 3 * g.segmentLen - 3
  {
    hide RfcOffset;
    var n := g.segmentLen;
    FullOffset(n);
    assert RfcStart(1, 2, g) == 3 * n;
    Reduced(4 * n, 3 * n - 3);
  }

  lemma FullOffset(n: nat)
    ensures RfcOffset(4 * n - 2, 0) == 4 * n - 3
  {}

  /** And in the code. */
  lemma CodePastRoom(g: Geometry, threads: uint32)
    requires Regular(g, threads) && !Roomy(g) && g.laneLen == 4 * g.segmentLen < U32 && g.segmentLen >= 2
    ensures ReferenceIndex(1, 2, g.segmentLen - 1, 0, true, g) == 7 * g.segmentLen - 3 - U32
  {
    hide Regular, Wrap32, CodeArea, CodeOffset, RfcOffset;
    var n := g.segmentLen;
    StartPastRoom(g, threads);
    AreaPastRoom(g, threads);
    OffsetInRange(4 * n - 2, 0);
    FullOffset(n);
    SumPastRoom(n);
  }

  lemma StartPastRoom(g: Geometry, threads: uint32)
    requires Regular(g, threads) && g.laneLen == 4 * g.segmentLen && g.segmentLen >= 2
    ensures Wrap32(Wrap32(3) * g.segmentLen) % g.laneLen == 3 * g.segmentLen
  {
    hide Regular, Wrap32;
    StartIsRfc(1, 2, g, threads);
  }

  lemma AreaPastRoom(g: Geometry, threads: uint32)
    requires Regular(g, threads) && g.laneLen == 4 * g.segmentLen < U32 && g.segmentLen >= 2
    ensures CodeArea(1, 2, g.segmentLen - 1, true, g) == 4 * g.segmentLen - 2
  {
    hide Regular, CodeArea;
    AreaBounds(1, 2, g.segmentLen - 1, true, g, threads);
  }

  lemma SumPastRoom(n: nat)
    requires n >= 2 && 4 * n < U32 <= 7 * n - 3
    ensures Wrap32(3 * n + Wrap32(4 * n - 3)) % (4 * n) == 7 * n - 3 - U32
  {
    hide Wrap32;
    NoWrap(4 * n - 3);
    WrapsOnce(3 * n + (4 * n - 3));
    Reduced(4 * n, 7 * n - 3 - U32);
  }

  lemma WrapsOnce(x: int)
    requires U32 <= x < 2 * U32
    ensures Wrap32(x) == x - U32
  {}

  lemma Reduced(m: nat, x: nat)
    requires m > 0
    ensures (m + x) % m == x % m
    ensures x < m ==> x % m == x
  {
    DivBy(x, m);
    SegmentOf(m + x, x / m + 1, x % m, m);
    if x < m { SegmentOf(x, 0, x, m); }
  }

  /** The reference set is never empty exactly because a segment has two blocks: with
      shorter ones the first visit of slice one finds nothing to refer to. */
  lemma AreaNeverEmptyIff(g: Geometry)
    requires g.segmentLen >= 1 && g.laneLen == 4 * g.segmentLen && g.laneLen < U32
    ensures g.segmentLen >= 2 <==> (forall pass: uint32, slice: uint32, index: uint32, same: bool ::
      Visits(pass, slice, index, same, g) ==> CodeArea(pass, slice, index, same, g) >= 1)
  {
    if g.segmentLen >= 2 {
      forall pass: uint32, slice: uint32, index: uint32, same: bool | Visits(pass, slice, index, same, g)
        ensures CodeArea(pass, slice, index, same, g) >= 1
      {
        assert Regular(Geometry(g.laneLen, g.laneLen, g.segmentLen), 1);
        AreaBounds(pass, slice, index, same, Geometry(g.laneLen, g.laneLen, g.segmentLen), 1);
      }
    } else {
      assert Visits(0, 1, 0, true, g) && CodeArea(0, 1, 0, true, g) == 0;
    }
  }

  // ------------------------------------------------- references are filled blocks

  /** While position (slice, index) of a lane is being filled in `pass`, this column of
      a lane holds a finished block that no lane of the slice is writing: it lies in a
      slice that is complete, or earlier in the segment of the very same lane. */
  predicate Available(pass: nat, slice: nat, index: nat, same: bool, column: nat, g: Geometry)
    requires g.segmentLen > 0
  {
    && column < g.laneLen
    && (|| (column / g.segmentLen != slice && (pass > 0 || column / g.segmentLen < slice))
        || (same && column / g.segmentLen == slice && column % g.segmentLen < index))
  }

  /** The column before the current one, cyclically. */
  function PreviousColumn(slice: nat, index: nat, g: Geometry): int {
    var current := slice * g.segmentLen + index;
    if current == 0 then g.laneLen - 1 else current - 1
  }

  lemma SegmentOf(column: nat, slice: nat, offset: nat, n: nat)
    requires n > 0 && offset < n && column == slice * n + offset
    ensures column / n == slice && column % n == offset
  {
    DivBy(column, n);
    var q := column / n;
    if q < slice { MulMono(q + 1, slice, n); }
    if q > slice { MulMono(slice + 1, q, n); }
  }

  /** Which blocks a reference can reach: available ones, and never the block just
      before the current one in its own lane. */
  lemma ReferenceAvailable(
    pass: uint32, slice: uint32, index: uint32, pseudo: uint64, same: bool, g: Geometry, threads: uint32)
    requires Regular(g, threads) && Visits(pass, slice, index, same, g) && Roomy(g)
    ensures var r := ReferenceIndex(pass, slice, index, pseudo, same, g);
      && 0 <= r < g.laneLen
      && Available(pass, slice, index, same, r, g)
      && (same ==> r != slice * g.segmentLen + index && r != PreviousColumn(slice, index, g))
  {
    CodeIsRfc(pass, slice, index, pseudo, same, g, threads);
    AreaBounds(pass, slice, index, same, g, threads);
    var n := g.segmentLen;
    var area := Area(pass, slice, index, same, n);
    OffsetInRange(area, pseudo);
    var z := RfcOffset(area, pseudo);
    var start := RfcStart(pass, slice, g);
    var r := (start + z) % g.laneLen;
    Slices(slice, n);
    if start + z < g.laneLen { Reduced(g.laneLen, start + z); } else { Reduced(g.laneLen, start + z - g.laneLen); }
    assert r == if start + z < g.laneLen then start + z else start + z - g.laneLen;
    InSegments(r, n);
    ColumnAvailable(pass, slice, index, same, r, start + z, g);
  }

  /** The same, from the unreduced position: pure case analysis on the four slices. */
  lemma ColumnAvailable(pass: nat, slice: nat, index: nat, same: bool, r: nat, sum: nat, g: Geometry)
    requires g.segmentLen >= 2 && g.laneLen == 4 * g.segmentLen
    requires slice < 4 && index < g.segmentLen && (pass == 0 && slice == 0 ==> index >= 2 && same)
    requires RfcStart(pass, slice, g) <= sum < RfcStart(pass, slice, g) + Area(pass, slice, index, same, g.segmentLen)
    requires r == if sum < g.laneLen then sum else sum - g.laneLen
    ensures r < g.laneLen && Available(pass, slice, index, same, r, g)
    ensures same ==> r != slice * g.segmentLen + index && r != PreviousColumn(slice, index, g)
  {
    var n := g.segmentLen;
    Slices(slice, n);
    InSegments(r, n);
  }

  lemma InSegments(r: nat, n: nat)
    requires n > 0 && r < 4 * n
    ensures r / n < 4
    ensures r < n ==> r / n == 0 && r % n == r
    ensures n <= r < 2 * n ==> r / n == 1 && r % n == r - n
    ensures 2 * n <= r < 3 * n ==> r / n == 2 && r % n == r - 2 * n
    ensures 3 * n <= r ==> r / n == 3 && r % n == r - 3 * n
  {
    if r < n { SegmentOf(r, 0, r, n); }
    else if r < 2 * n { SegmentOf(r, 1, r - n, n); }
    else if r < 3 * n { SegmentOf(r, 2, r - 2 * n, n); }
    else { SegmentOf(r, 3, r - 3 * n, n); }
  }

  /** The reference set of section 3.4.2: the available columns, without the block just
      before the current one and, at the start of a segment, without the last block of
      the preceding segment of any lane. */
  predicate InReferenceSet(pass: nat, slice: nat, index: nat, same: bool, column: nat, g: Geometry)
    requires g.segmentLen > 0
  {
    && Available(pass, slice, index, same, column, g)
    && (same || index == 0 ==> column != PreviousColumn(slice, index, g))
    && (pass == 0 && slice == 0 ==> same)
  }

  /** The window of `Area` columns from the start position is exactly that set. */
  lemma WindowIsReferenceSet(pass: nat, slice: nat, index: nat, same: bool, r: nat, g: Geometry)
    requires g.segmentLen >= 2 && g.laneLen == 4 * g.segmentLen && r < g.laneLen
    requires slice < 4 && index < g.segmentLen && (pass == 0 && slice == 0 ==> index >= 2 && same)
    ensures var start := RfcStart(pass, slice, g);
      var k := if r >= start then r - start else r + g.laneLen - start;
      k < Area(pass, slice, index, same, g.segmentLen) <==> InReferenceSet(pass, slice, index, same, r, g)
  {
    Slices(slice, g.segmentLen);
    InSegments(r, g.segmentLen);
  }
}
