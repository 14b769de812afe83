/** Filling the Argon2id memory in place. The compression function and the block xor
    are parameters; everything about which block is read and written when is the
    code's own. */
module Argon2Fill {
  import opened Bytes
  import opened Argon2Index

  type Block = b: seq<uint64> | |b| == 128 witness seq(128, _ => 0)

  /** `compress` is fillBlock without the old block, `mix` the xor with it. */
  datatype Cipher = Cipher(compress: (Block, Block) -> Block, mix: (Block, Block) -> Block)

  datatype Params = Params(g: Geometry, threads: uint32, timeCost: uint32)

  /** The segment being filled. */
  datatype Where = Where(pass: uint32, slice: uint32, lane: uint32)

  /** A regular layout: everything below needs this and no more, except what says that
      references stay out of the other lanes, which needs the room as well. */
  predicate Sound(par: Params) { Regular(par.g, par.threads) }

  predicate Inside(par: Params, w: Where) { w.lane < par.threads && w.slice < 4 }

  predicate Full(par: Params, mem: seq<Block>) { |mem| == par.g.memory }

  function First(w: Where): nat { if w.pass == 0 && w.slice == 0 then 2 else 0 }

  // -------------------------------------------------------------- one block

  const ZERO: Block := seq(128, _ => 0)

  /** The counter block of section 3.4.1.2 of RFC 9106. */
  function Numbered(par: Params, w: Where, counter: uint64): Block {
    [w.pass, w.lane, w.slice, Wrap64(par.g.memory), par.timeCost, 2, counter] + seq(121, _ => 0)
  }

  function Address(c: Cipher, par: Params, w: Where, counter: uint64): Block {
    c.compress(ZERO, c.compress(ZERO, Numbered(par, w, counter)))
  }

  function Position(par: Params, lane: nat, column: nat): nat { lane * par.g.laneLen + column }

  lemma InLane(par: Params, lane: nat, column: nat)
    requires Sound(par) && lane < par.threads && column < par.g.laneLen
    ensures Position(par, lane, column) < par.g.memory < U32
    ensures Position(par, lane, column) / par.g.laneLen == lane
    ensures Position(par, lane, column) % par.g.laneLen == column
  {
    MulMono(lane + 1, par.threads, par.g.laneLen);
    assert (lane + 1) * par.g.laneLen == lane * par.g.laneLen + par.g.laneLen;
    SegmentOf(Position(par, lane, column), lane, column, par.g.laneLen);
  }

  lemma InSlice(par: Params, slice: nat, index: nat)
    requires Sound(par) && slice < 4 && index < par.g.segmentLen
    ensures slice * par.g.segmentLen + index < par.g.laneLen
    ensures (slice * par.g.segmentLen + index) / par.g.segmentLen == slice
    ensures 0 <= PreviousColumn(slice, index, par.g) < par.g.laneLen
  {
    Slices(slice, par.g.segmentLen);
    SegmentOf(slice * par.g.segmentLen + index, slice, index, par.g.segmentLen);
  }

  function Current(par: Params, w: Where, index: nat): (p: nat)
    requires Sound(par) && Inside(par, w) && index < par.g.segmentLen
    ensures p < par.g.memory
  {
    InSlice(par, w.slice, index);
    InLane(par, w.lane, w.slice * par.g.segmentLen + index);
    Position(par, w.lane, w.slice * par.g.segmentLen + index)
  }

  function Previous(par: Params, w: Where, index: nat): (p: nat)
    requires Sound(par) && Inside(par, w) && index < par.g.segmentLen
    ensures p < par.g.memory
  {
    InSlice(par, w.slice, index);
    InLane(par, w.lane, PreviousColumn(w.slice, index, par.g));
    Position(par, w.lane, PreviousColumn(w.slice, index, par.g))
  }

  /** The pseudo-random word of a position: data independent in the first half of the
      first pass, the preceding block's first word after that. */
  function Pseudo(c: Cipher, par: Params, w: Where, mem: seq<Block>, index: nat): uint64
    requires Sound(par) && Inside(par, w) && Full(par, mem) && index < par.g.segmentLen
  {
    if w.pass == 0 && w.slice < 2 then Address(c, par, w, Wrap64(index / 128 + 1))[index % 128]
    else mem[Previous(par, w, index)][0]
  }

  function RefLane(par: Params, w: Where, pseudo: uint64): uint32
    requires par.threads > 0
  {
    if w.pass == 0 && w.slice == 0 then w.lane else pseudo / U32 % par.threads
  }

  function Reference(par: Params, w: Where, index: nat, pseudo: uint64): (p: nat)
    requires Sound(par) && Inside(par, w) && First(w) <= index < par.g.segmentLen
    ensures p < par.g.memory
  {
    var lane := RefLane(par, w, pseudo);
    LaneFits(par.g, par.threads);
    ReferenceInLane(w.pass, w.slice, index, pseudo, lane == w.lane, par.g, par.threads);
    var column := ReferenceIndex(w.pass, w.slice, index, pseudo, lane == w.lane, par.g);
    InLane(par, lane, column);
    Position(par, lane, column)
  }

  /** fillBlock. */
  function NewBlock(c: Cipher, previous: Block, reference: Block, prior: Block, xorOld: bool): Block {
    if xorOld then c.mix(c.compress(previous, reference), prior) else c.compress(previous, reference)
  }

  function FillAt(c: Cipher, par: Params, w: Where, mem: seq<Block>, index: nat): (out: seq<Block>)
    requires Sound(par) && Inside(par, w) && Full(par, mem) && First(w) <= index < par.g.segmentLen
    ensures Full(par, out)
  {
    var cur := Current(par, w, index);
    var r := Reference(par, w, index, Pseudo(c, par, w, mem, index));
    mem[cur := NewBlock(c, mem[Previous(par, w, index)], mem[r], mem[cur], w.pass != 0)]
  }

  /** The segment filled up to `index`. */
  function Segment(c: Cipher, par: Params, w: Where, mem: seq<Block>, index: nat): (out: seq<Block>)
    requires Sound(par) && Inside(par, w) && Full(par, mem) && First(w) <= index <= par.g.segmentLen
    ensures Full(par, out)
  {
    if index == First(w) then mem else FillAt(c, par, w, Segment(c, par, w, mem, index - 1), index - 1)
  }

  // ------------------------------------------------------- the loop in place

  /** The loop's own position arithmetic, in 32 bits. */
  method Around(par: Params, w: Where, index: nat) returns (current: nat, previous: nat)
    requires Sound(par) && Inside(par, w) && index < par.g.segmentLen
    ensures current == Current(par, w, index) && previous == Previous(par, w, index)
  {
    hide Position, PreviousColumn;
    CurrentFits(par, w, index);
    PreviousFits(par, w, index);
    current := Wrap32(Wrap32(w.lane * par.g.laneLen) + Wrap32(w.slice * par.g.segmentLen) + index);
    previous := Wrap32(current - 1);
    if current % par.g.laneLen == 0 {
      previous := Wrap32(previous + par.g.laneLen);
    }
  }

  method Refer(par: Params, w: Where, index: nat, pseudo: uint64) returns (reference: nat)
    requires Sound(par) && Inside(par, w) && First(w) <= index < par.g.segmentLen
    ensures reference == Reference(par, w, index, pseudo)
  {
    var refLane := pseudo / U32 % par.threads;
    if w.pass == 0 && w.slice == 0 {
      refLane := w.lane;
    }
    LaneFits(par.g, par.threads);
    ReferenceInLane(w.pass, w.slice, index, pseudo, refLane == w.lane, par.g, par.threads);
    hide ReferenceIndex, Regular, PreviousColumn;
    var refIndex := ReferenceIndex(w.pass, w.slice, index, pseudo, refLane == w.lane, par.g);
    InLane(par, refLane, refIndex);
    reference := Wrap32(Wrap32(refLane * par.g.laneLen) + refIndex);
    LaneStart(par, refLane, refIndex);
  }

  lemma LaneStart(par: Params, lane: nat, column: nat)
    requires Sound(par) && lane < par.threads && column < par.g.laneLen
    ensures Wrap32(Wrap32(lane * par.g.laneLen) + column) == Position(par, lane, column)
  {
    InLane(par, lane, column);
    var a := lane * par.g.laneLen;
    assert a < U32 && Wrap32(a) == a && Wrap32(a + column) == a + column;
  }

  /** The address block at hand serves the index before this one. */
  predicate Counting(c: Cipher, par: Params, w: Where, index: nat, address: Block, input: Block) {
    && input == Numbered(par, w, input[6])
    && (w.pass == 0 && w.slice < 2 && index > 0 ==>
          input[6] == (index - 1) / 128 + 1 && address == Address(c, par, w, input[6]))
    && (index == 0 ==> input[6] == 0)
  }

  /** nextAddresses. */
  method NextAddresses(c: Cipher, input: Block) returns (address: Block, next: Block)
    ensures next == input[6 := Wrap64(input[6] as int + 1)] && address == c.compress(ZERO, c.compress(ZERO, next))
  {
    next := input[6 := Wrap64(input[6] as int + 1)];
    var tmp := c.compress(ZERO, next);
    address := c.compress(ZERO, tmp);
  }

  /** The pseudo-random word of this index. In the data-independent slices it comes from
      the address block of section 3.4.1.2 of RFC 9106, a new one every 128 indices;
      otherwise it is the first word of the cyclic predecessor. */
  method NextPseudo(c: Cipher, par: Params, memory: array<Block>, w: Where, index: nat, address: Block, input: Block)
    returns (pseudo: uint64, nextAddress: Block, nextInput: Block)
    requires Sound(par) && Inside(par, w) && memory.Length == par.g.memory && index < par.g.segmentLen
    requires Counting(c, par, w, index, address, input)
    ensures pseudo == Pseudo(c, par, w, memory[..], index)
    ensures Counting(c, par, w, index + 1, nextAddress, nextInput)
    ensures w.pass == 0 && w.slice < 2 ==>
      pseudo == c.compress(ZERO, c.compress(ZERO,
        [w.pass, w.lane, w.slice, par.g.memory, par.timeCost, 2, index / 128 + 1] + seq(121, _ => 0)))[index % 128]
    ensures w.pass > 0 || w.slice >= 2 ==>
      var column := w.slice * par.g.segmentLen + index;
      var previous := w.lane * par.g.laneLen + (if column == 0 then par.g.laneLen - 1 else column - 1);
      0 <= previous < memory.Length && pseudo == memory[previous][0]
  {
    hide Sound, Inside;
    SegmentFits(par);
    WordIsRfc(c, par, w, memory[..], index);
    nextAddress, nextInput := address, input;
    if w.pass == 0 && w.slice < 2 {
      CounterOf(index);
      if index % 128 == 0 {
        nextAddress, nextInput := NextAddresses(c, input);
        NumberedNext(par, w, input[6]);
      }
      return nextAddress[index % 128], nextAddress, nextInput;
    }
    hide Numbered, Address;
    var _, previous := Around(par, w, index);
    return memory[previous][0], nextAddress, nextInput;
  }

  lemma NumberedNext(par: Params, w: Where, counter: uint64)
    ensures Numbered(par, w, counter)[6 := Wrap64(counter as int + 1)] == Numbered(par, w, Wrap64(counter as int + 1))
  {}

  /** The word in literal terms. */
  lemma WordIsRfc(c: Cipher, par: Params, w: Where, mem: seq<Block>, index: nat)
    requires Sound(par) && Inside(par, w) && Full(par, mem) && index < par.g.segmentLen
    ensures par.g.memory < U32 && index / 128 + 1 < U32
    ensures w.pass == 0 && w.slice < 2 ==>
      Pseudo(c, par, w, mem, index) == c.compress(ZERO, c.compress(ZERO,
        [w.pass, w.lane, w.slice, par.g.memory, par.timeCost, 2, index / 128 + 1] + seq(121, _ => 0)))[index % 128]
    ensures var column := w.slice * par.g.segmentLen + index;
      var previous := w.lane * par.g.laneLen + (if column == 0 then par.g.laneLen - 1 else column - 1);
      && previous == Previous(par, w, index) && 0 <= previous < |mem|
      && (w.pass > 0 || w.slice >= 2 ==> Pseudo(c, par, w, mem, index) == mem[previous][0])
  {
    SegmentFits(par);
    LaneFits(par.g, par.threads);
    assert Wrap64(par.g.memory) == par.g.memory && Wrap64(index / 128 + 1) == index / 128 + 1;
    PreviousIsCyclic(par, w, index);
  }

  lemma PreviousIsCyclic(par: Params, w: Where, index: nat)
    requires Sound(par) && Inside(par, w) && index < par.g.segmentLen
    ensures var column := w.slice * par.g.segmentLen + index;
      Previous(par, w, index) == w.lane * par.g.laneLen + (if column == 0 then par.g.laneLen - 1 else column - 1)
  {}

  /** One step of a segment, as sections 3.2 and 3.4 of RFC 9106 have it: the block at
      this index is made from its cyclic predecessor and a referenced block, and xored
      with what it was in every pass but the first. */
  predicate IsStep(c: Cipher, par: Params, w: Where, index: nat, before: seq<Block>, after: seq<Block>)
    requires Sound(par) && Full(par, before)
  {
    var column := w.slice * par.g.segmentLen + index;
    var current := w.lane * par.g.laneLen + column;
    var previous := w.lane * par.g.laneLen + (if column == 0 then par.g.laneLen - 1 else column - 1);
    && 0 <= current < |before| && 0 <= previous < |before|
    && var word :=
         if w.pass == 0 && w.slice < 2 then
           c.compress(ZERO, c.compress(ZERO,
             [w.pass, w.lane, w.slice, par.g.memory, par.timeCost, 2, Wrap64(index / 128 + 1)] + seq(121, _ => 0)))[index % 128]
         else before[previous][0];
       var lane := if w.pass == 0 && w.slice == 0 then w.lane else word / U32 % par.threads;
       var reference := lane * par.g.laneLen + ReferenceIndex(w.pass, w.slice, Wrap32(index), word, lane == w.lane, par.g);
       && 0 <= reference < |before|
       && var made := c.compress(before[previous], before[reference]);
          after == before[current := if w.pass == 0 then made else c.mix(made, before[current])]
  }

  /** The memory goes from `before` to `after` in one such step for each index of the
      segment but the two that the seed has filled. */
  ghost predicate SegmentFilled(c: Cipher, par: Params, w: Where, before: seq<Block>, after: seq<Block>)
    requires Sound(par)
  {
    exists trace: seq<seq<Block>> :: StepByStep(c, par, w, trace) && trace[0] == before && trace[|trace| - 1] == after
  }

  ghost predicate StepByStep(c: Cipher, par: Params, w: Where, trace: seq<seq<Block>>)
    requires Sound(par)
  {
    var start := if w.pass == 0 && w.slice == 0 then 2 else 0;
    && |trace| == par.g.segmentLen - start + 1 && trace != []
    && (forall k :: 0 <= k < |trace| ==> Full(par, trace[k]))
    && (forall k :: 0 <= k < |trace| - 1 ==> IsStep(c, par, w, start + k, trace[k], trace[k + 1]))
  }

  lemma FillAtIsStep(c: Cipher, par: Params, w: Where, mem: seq<Block>, index: nat)
    requires Sound(par) && Inside(par, w) && Full(par, mem) && First(w) <= index < par.g.segmentLen
    ensures IsStep(c, par, w, index, mem, FillAt(c, par, w, mem, index))
  {
    SegmentFits(par);
    WordIsRfc(c, par, w, mem, index);
    assert Wrap32(index) == index && Wrap64(index / 128 + 1) == index / 128 + 1;
    var word := Pseudo(c, par, w, mem, index);
    hide Pseudo, Previous, Address, Numbered, ReferenceIndex;
  }

  lemma {:induction false} SegmentSteps(c: Cipher, par: Params, w: Where, mem: seq<Block>, n: nat) returns (trace: seq<seq<Block>>)
    requires Sound(par) && Inside(par, w) && Full(par, mem) && First(w) <= n <= par.g.segmentLen
    ensures |trace| == n - First(w) + 1 && forall k :: 0 <= k < |trace| ==> Full(par, trace[k])
    ensures trace[0] == mem && trace[|trace| - 1] == Segment(c, par, w, mem, n)
    ensures forall k :: 0 <= k < |trace| - 1 ==> IsStep(c, par, w, First(w) + k, trace[k], trace[k + 1])
    decreases n
  {
    hide Sound, Inside, IsStep, FillAt;
    if n == First(w) {
      trace := [mem];
    } else {
      var front := SegmentSteps(c, par, w, mem, n - 1);
      FillAtIsStep(c, par, w, Segment(c, par, w, mem, n - 1), n - 1);
      trace := front + [Segment(c, par, w, mem, n)];
    }
  }

  lemma SegmentIsFilled(c: Cipher, par: Params, w: Where, mem: seq<Block>)
    requires Sound(par) && Inside(par, w) && Full(par, mem)
    ensures First(w) <= par.g.segmentLen && SegmentFilled(c, par, w, mem, Segment(c, par, w, mem, par.g.segmentLen))
  {
    SegmentFits(par);
    hide Sound, Inside, IsStep, Segment;
    var trace := SegmentSteps(c, par, w, mem, par.g.segmentLen);
    assert StepByStep(c, par, w, trace);
  }

  /** fillSegment. Every subscript is in range, none of the 32-bit arithmetic wraps
      (except where it is meant to, at the first block of lane zero), and the memory
      goes through the segment step by step as the standard has it. */
  method FillSegment(c: Cipher, par: Params, memory: array<Block>, w: Where)
    requires Sound(par) && Inside(par, w) && memory.Length == par.g.memory
    modifies memory
    ensures memory[..] == Segment(c, par, w, old(memory[..]), par.g.segmentLen)
    ensures SegmentFilled(c, par, w, old(memory[..]), memory[..])
  {
    hide Sound, Inside, Current, Previous, Reference, Pseudo, Address, SegmentFilled;
    ghost var before := memory[..];
    var segmentLen := par.g.segmentLen;
    var address := ZERO;
    var input := ZERO;
    input := input[0 := w.pass][1 := w.lane][2 := w.slice];
    input := input[3 := Wrap64(par.g.memory)][4 := par.timeCost][5 := 2];
    assert input == Numbered(par, w, 0);
    var index := 0;
    SegmentFits(par);
    if w.pass == 0 && w.slice == 0 {
      index := 2;
      address, input := FirstAddresses(c, par, w, input);
    }
    hide Numbered;
    while index < segmentLen
      invariant First(w) <= index <= segmentLen
      invariant memory[..] == Segment(c, par, w, before, index)
      invariant Counting(c, par, w, index, address, input)
    {
      ghost var now := memory[..];
      var current, previous := Around(par, w, index);
      var pseudo;
      pseudo, address, input := NextPseudo(c, par, memory, w, index, address, input);
      var reference := Refer(par, w, index, pseudo);
      memory[current] := NewBlock(c, memory[previous], memory[reference], memory[current], w.pass != 0);
      assert memory[..] == FillAt(c, par, w, now, index);
      index := index + 1;
    }
    SegmentIsFilled(c, par, w, before);
  }

  /** The first call of nextAddresses, before index 2. */
  method FirstAddresses(c: Cipher, par: Params, w: Where, input: Block) returns (address: Block, next: Block)
    requires w.pass == 0 && w.slice == 0 && input == Numbered(par, w, 0)
    ensures Counting(c, par, w, 2, address, next)
  {
    address, next := NextAddresses(c, input);
  }

  lemma SegmentFits(par: Params)
    requires Sound(par)
    ensures 2 <= par.g.segmentLen < U32
  {
    LaneFits(par.g, par.threads);
  }

  lemma Products(par: Params, w: Where)
    ensures w.lane * par.g.laneLen >= 0 && w.slice * par.g.segmentLen >= 0
  {
    MulMono(0, w.lane, par.g.laneLen);
    MulMono(0, w.slice, par.g.segmentLen);
  }

  lemma CurrentFits(par: Params, w: Where, index: nat)
    requires Sound(par) && Inside(par, w) && index < par.g.segmentLen
    ensures w.lane * par.g.laneLen < U32 && w.slice * par.g.segmentLen < U32
    ensures Wrap32(Wrap32(w.lane * par.g.laneLen) + Wrap32(w.slice * par.g.segmentLen) + index)
         == Current(par, w, index)
  {
    hide Wrap32, Regular;
    InSlice(par, w.slice, index);
    InLane(par, w.lane, w.slice * par.g.segmentLen + index);
    var a, b := w.lane * par.g.laneLen, w.slice * par.g.segmentLen;
    Products(par, w);
    NoWrap(a);
    NoWrap(b);
    NoWrap(a + b + index);
  }

  lemma PreviousFits(par: Params, w: Where, index: nat)
    requires Sound(par) && Inside(par, w) && index < par.g.segmentLen
    ensures var current := Current(par, w, index);
      Previous(par, w, index) == if current % par.g.laneLen == 0
                                 then Wrap32(Wrap32(current - 1) + par.g.laneLen) else Wrap32(current - 1)
  {
    hide Wrap32;
    InSlice(par, w.slice, index);
    var column := w.slice * par.g.segmentLen + index;
    PreviousIsCyclic(par, w, index);
    InLane(par, w.lane, column);
    InLane(par, w.lane, par.g.laneLen - 1);
    hide Sound, Inside, Previous;
    BeforeInLane(w.lane * par.g.laneLen, column, par.g.laneLen);
  }

  lemma BeforeInLane(base: nat, column: nat, laneLen: nat)
    requires column < laneLen && base + laneLen - 1 < U32
    ensures base + (if column == 0 then laneLen - 1 else column - 1)
         == if column == 0 then Wrap32(Wrap32(base + column - 1) + laneLen) else Wrap32(base + column - 1)
  {}

  lemma CounterOf(index: nat)
    ensures index % 128 == 0 && index > 0 ==> index / 128 == (index - 1) / 128 + 1
    ensures index % 128 != 0 ==> index > 0 && index / 128 == (index - 1) / 128
    ensures index % 128 == 0 && index == 0 ==> index / 128 == 0
  {}

  // ------------------------------------------------------ lanes in any order

  predicate Mine(par: Params, w: Where, i: nat)
    requires Sound(par)
  {
    i / par.g.laneLen == w.lane && i % par.g.laneLen / par.g.segmentLen == w.slice
  }

  /** Position `i` belongs to another lane's segment of the same slice. */
  predicate Foreign(par: Params, w: Where, i: nat)
    requires Sound(par)
  {
    i / par.g.laneLen != w.lane && i % par.g.laneLen / par.g.segmentLen == w.slice
  }

  /** The memories differ at most in what the other lanes of this slice write. */
  predicate Agree(par: Params, w: Where, a: seq<Block>, b: seq<Block>)
    requires Sound(par)
  {
    Full(par, a) && Full(par, b) && forall i :: 0 <= i < par.g.memory && !Foreign(par, w, i) ==> a[i] == b[i]
  }

  lemma CurrentIsMine(par: Params, w: Where, index: nat)
    requires Sound(par) && Inside(par, w) && index < par.g.segmentLen
    ensures Mine(par, w, Current(par, w, index)) && !Foreign(par, w, Current(par, w, index))
    ensures !Foreign(par, w, Previous(par, w, index))
  {
    InSlice(par, w.slice, index);
    InLane(par, w.lane, w.slice * par.g.segmentLen + index);
    InLane(par, w.lane, PreviousColumn(w.slice, index, par.g));
  }

  /** A reference never reaches into what another lane is writing. */
  lemma ReferenceNotForeign(par: Params, w: Where, index: nat, pseudo: uint64)
    requires Sound(par) && Roomy(par.g) && Inside(par, w) && First(w) <= index < par.g.segmentLen
    ensures !Foreign(par, w, Reference(par, w, index, pseudo))
  {
    var lane := RefLane(par, w, pseudo);
    LaneFits(par.g, par.threads);
    ReferenceAvailable(w.pass, w.slice, index, pseudo, lane == w.lane, par.g, par.threads);
    InLane(par, lane, ReferenceIndex(w.pass, w.slice, index, pseudo, lane == w.lane, par.g));
  }

  lemma StepAgrees(c: Cipher, par: Params, w: Where, a: seq<Block>, b: seq<Block>, index: nat)
    requires Sound(par) && Roomy(par.g) && Inside(par, w) && First(w) <= index < par.g.segmentLen && Agree(par, w, a, b)
    ensures Agree(par, w, FillAt(c, par, w, a, index), FillAt(c, par, w, b, index))
  {
    hide Foreign, Sound, Current, Previous, Reference, Address;
    CurrentIsMine(par, w, index);
    var pa := Pseudo(c, par, w, a, index);
    assert pa == Pseudo(c, par, w, b, index);
    ReferenceNotForeign(par, w, index, pa);
  }

  lemma {:induction false} SegmentAgrees(c: Cipher, par: Params, w: Where, a: seq<Block>, b: seq<Block>, index: nat)
    requires Sound(par) && Roomy(par.g) && Inside(par, w) && First(w) <= index <= par.g.segmentLen && Agree(par, w, a, b)
    ensures Agree(par, w, Segment(c, par, w, a, index), Segment(c, par, w, b, index))
    decreases index
  {
    hide Foreign, Sound, FillAt;
    if index > First(w) {
      SegmentAgrees(c, par, w, a, b, index - 1);
      StepAgrees(c, par, w, Segment(c, par, w, a, index - 1), Segment(c, par, w, b, index - 1), index - 1);
    }
  }

  /** Filling a segment writes that segment only. */
  lemma {:induction false} SegmentIsLocal(c: Cipher, par: Params, w: Where, mem: seq<Block>, index: nat)
    requires Sound(par) && Inside(par, w) && Full(par, mem) && First(w) <= index <= par.g.segmentLen
    ensures forall i :: 0 <= i < par.g.memory && !Mine(par, w, i) ==> Segment(c, par, w, mem, index)[i] == mem[i]
    decreases index
  {
    hide Mine, Sound, Current, Previous, Reference, Address;
    if index > First(w) {
      SegmentIsLocal(c, par, w, mem, index - 1);
      CurrentIsMine(par, w, index - 1);
    }
  }

  predicate Lanes(par: Params, order: seq<uint32>) {
    && (forall k :: 0 <= k < |order| ==> order[k] < par.threads)
    && (forall j, k :: 0 <= j < k < |order| ==> order[j] != order[k])
  }

  /** One slice, its lanes filled one after the other in this order. */
  function FillSlice(c: Cipher, par: Params, pass: uint32, slice: uint32, mem: seq<Block>, order: seq<uint32>)
    : (out: seq<Block>)
    requires Sound(par) && slice < 4 && Full(par, mem) && Lanes(par, order)
    ensures Full(par, out)
  {
    if order == [] then mem
    else
      SegmentFits(par);
      Segment(c, par, Where(pass, slice, order[|order| - 1]),
              FillSlice(c, par, pass, slice, mem, order[..|order| - 1]), par.g.segmentLen)
  }

  /** The block at `i` once its own lane's segment has been filled from `mem`. */
  function OwnFill(c: Cipher, par: Params, pass: uint32, slice: uint32, mem: seq<Block>, lane: uint32, i: nat): Block
    requires Sound(par) && slice < 4 && Full(par, mem) && lane < par.threads && i < par.g.memory
  {
    SegmentFits(par);
    Segment(c, par, Where(pass, slice, lane), mem, par.g.segmentLen)[i]
  }

  /** After filling some lanes, each of them holds what it would hold had it been
      filled alone, and everything else is untouched. */
  lemma {:induction false} SliceAt(
    c: Cipher, par: Params, pass: uint32, slice: uint32, mem: seq<Block>, order: seq<uint32>, i: nat)
    requires Sound(par) && Roomy(par.g) && slice < 4 && Full(par, mem) && Lanes(par, order) && i < par.g.memory
    ensures FillSlice(c, par, pass, slice, mem, order)[i] ==
      if i % par.g.laneLen / par.g.segmentLen == slice && LaneOf(par, i) in order
      then OwnFill(c, par, pass, slice, mem, LaneOf(par, i), i) else mem[i]
    decreases |order|
  {
    hide Segment, Regular, Roomy;
    if order != [] {
      var front, lane := order[..|order| - 1], order[|order| - 1];
      var w := Where(pass, slice, lane);
      var mid := FillSlice(c, par, pass, slice, mem, front);
      SegmentFits(par);
      assert order == front + [lane];
      forall k | 0 <= k < par.g.memory && !Foreign(par, w, k) ensures mem[k] == mid[k] {
        SliceAt(c, par, pass, slice, mem, front, k);
      }
      assert Agree(par, w, mem, mid);
      SegmentAgrees(c, par, w, mem, mid, par.g.segmentLen);
      SegmentIsLocal(c, par, w, mid, par.g.segmentLen);
      SliceAt(c, par, pass, slice, mem, front, i);
    }
  }

  function LaneOf(par: Params, i: nat): (l: uint32)
    requires Sound(par) && i < par.g.memory
    ensures l < par.threads
  {
    DivBy(i, par.g.laneLen);
    LaneBound(par, i);
    i / par.g.laneLen
  }

  lemma LaneBound(par: Params, i: nat)
    requires Sound(par) && i < par.g.memory
    ensures 0 <= i / par.g.laneLen < par.threads
  {
    DivBy(i, par.g.laneLen);
    if i / par.g.laneLen >= par.threads {
      MulMono(par.threads, i / par.g.laneLen, par.g.laneLen);
    }
  }

  predicate Covers(par: Params, order: seq<uint32>) {
    Lanes(par, order) && forall l: uint32 :: l < par.threads ==> l in order
  }

  /** The lanes of a slice may be filled in any order: the memory is the same. */
  lemma AnyLaneOrder(
    c: Cipher, par: Params, pass: uint32, slice: uint32, mem: seq<Block>, a: seq<uint32>, b: seq<uint32>)
    requires Sound(par) && Roomy(par.g) && slice < 4 && Full(par, mem) && Covers(par, a) && Covers(par, b)
    ensures FillSlice(c, par, pass, slice, mem, a) == FillSlice(c, par, pass, slice, mem, b)
  {
    hide Sound, FillSlice, OwnFill;
    forall i | 0 <= i < par.g.memory
      ensures FillSlice(c, par, pass, slice, mem, a)[i] == FillSlice(c, par, pass, slice, mem, b)[i]
    {
      SliceAt(c, par, pass, slice, mem, a, i);
      SliceAt(c, par, pass, slice, mem, b, i);
    }
  }

  // ------------------------------------------------------------ the three loops

  function Ascending(n: uint32): (order: seq<uint32>)
    ensures |order| == n && forall k :: 0 <= k < n ==> order[k] == k
  {
    if n == 0 then [] else Ascending(n - 1) + [n - 1]
  }

  /** `slices` slices of one pass, then all of the passes before `passes`. */
  function FillPass(c: Cipher, par: Params, pass: uint32, mem: seq<Block>, slices: nat): (out: seq<Block>)
    requires Sound(par) && Full(par, mem) && slices <= 4
    ensures Full(par, out)
  {
    if slices == 0 then mem
    else FillSlice(c, par, pass, slices - 1, FillPass(c, par, pass, mem, slices - 1), Ascending(par.threads))
  }

  function FillPasses(c: Cipher, par: Params, mem: seq<Block>, passes: uint32): (out: seq<Block>)
    requires Sound(par) && Full(par, mem)
    ensures Full(par, out)
  {
    if passes == 0 then mem else FillPass(c, par, passes - 1, FillPasses(c, par, mem, passes - 1), 4)
  }

  /** One slice is filled lane after lane. */
  ghost predicate SliceFilled(c: Cipher, par: Params, pass: uint32, slice: uint32, before: seq<Block>, after: seq<Block>)
    requires Sound(par)
  {
    exists trace: seq<seq<Block>> ::
      && |trace| == par.threads + 1 && trace[0] == before && trace[par.threads] == after
      && forall lane: uint32 :: lane < par.threads ==>
           SegmentFilled(c, par, Where(pass, slice, lane), trace[lane], trace[lane + 1])
  }

  /** One pass is four slices. */
  ghost predicate PassFilled(c: Cipher, par: Params, pass: uint32, before: seq<Block>, after: seq<Block>)
    requires Sound(par)
  {
    exists m1, m2, m3 ::
      && SliceFilled(c, par, pass, 0, before, m1) && SliceFilled(c, par, pass, 1, m1, m2)
      && SliceFilled(c, par, pass, 2, m2, m3) && SliceFilled(c, par, pass, 3, m3, after)
  }

  /** The memory is filled in as many passes as the time cost says. */
  ghost predicate MemoryFilled(c: Cipher, par: Params, before: seq<Block>, after: seq<Block>)
    requires Sound(par)
  {
    exists trace: seq<seq<Block>> ::
      && |trace| == par.timeCost + 1 && trace[0] == before && trace[par.timeCost] == after
      && forall pass: uint32 :: pass < par.timeCost ==> PassFilled(c, par, pass, trace[pass], trace[pass + 1])
  }

  /** The inner loop of argon2idKey: one slice, lane after lane. */
  method FillLanes(c: Cipher, par: Params, memory: array<Block>, pass: uint32, slice: uint32)
    requires Sound(par) && memory.Length == par.g.memory && slice < 4
    modifies memory
    ensures memory[..] == FillSlice(c, par, pass, slice, old(memory[..]), Ascending(par.threads))
    ensures SliceFilled(c, par, pass, slice, old(memory[..]), memory[..])
  {
    hide Sound, Segment, SegmentFilled;
    ghost var before := memory[..];
    ghost var trace := [before];
    for lane: int := 0 to par.threads
      invariant memory[..] == FillSlice(c, par, pass, slice, before, Ascending(lane))
      invariant |trace| == lane + 1 && trace[0] == before && trace[lane] == memory[..]
      invariant forall l: uint32 :: l < lane ==> SegmentFilled(c, par, Where(pass, slice, l), trace[l], trace[l + 1])
    {
      assert Ascending(lane + 1)[..lane] == Ascending(lane);
      FillSegment(c, par, memory, Where(pass, slice, lane));
      trace := trace + [memory[..]];
    }
  }

  /** The nested loops of argon2idKey over passes, slices and lanes. */
  method FillMemory(c: Cipher, par: Params, memory: array<Block>)
    requires Sound(par) && memory.Length == par.g.memory
    modifies memory
    ensures memory[..] == FillPasses(c, par, old(memory[..]), par.timeCost)
    ensures MemoryFilled(c, par, old(memory[..]), memory[..])
  {
    hide Sound, FillSlice, SliceFilled, PassFilled;
    ghost var before := memory[..];
    ghost var trace := [before];
    for pass: int := 0 to par.timeCost
      invariant memory[..] == FillPasses(c, par, before, pass)
      invariant |trace| == pass + 1 && trace[0] == before && trace[pass] == memory[..]
      invariant forall k: uint32 :: k < pass ==> PassFilled(c, par, k, trace[k], trace[k + 1])
    {
      ghost var atPass := memory[..];
      ghost var slices := [atPass];
      for slice: int := 0 to 4
        invariant memory[..] == FillPass(c, par, pass, atPass, slice)
        invariant |slices| == slice + 1 && slices[0] == atPass && slices[slice] == memory[..]
        invariant forall k: uint32 :: k < slice ==> SliceFilled(c, par, pass, k, slices[k], slices[k + 1])
      {
        FillLanes(c, par, memory, pass, slice);
        slices := slices + [memory[..]];
      }
      FourSlices(c, par, pass, slices);
      trace := trace + [memory[..]];
    }
  }

  lemma FourSlices(c: Cipher, par: Params, pass: uint32, slices: seq<seq<Block>>)
    requires Sound(par) && |slices| == 5
    requires forall k: uint32 :: k < 4 ==> SliceFilled(c, par, pass, k, slices[k], slices[k + 1])
    ensures PassFilled(c, par, pass, slices[0], slices[4])
  {
    hide SliceFilled;
    assert SliceFilled(c, par, pass, 0, slices[0], slices[1]) && SliceFilled(c, par, pass, 1, slices[1], slices[2]);
    assert SliceFilled(c, par, pass, 2, slices[2], slices[3]) && SliceFilled(c, par, pass, 3, slices[3], slices[4]);
  }
}
