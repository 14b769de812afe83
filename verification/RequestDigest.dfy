/** The bytes a friend interaction is identified by. SHA-256 is taken to be collision
    free, so two requests share a digest exactly when they share this preimage. */
module RequestDigest {
  import opened Bytes

  const APPLY_PEST: uint32 := 1
  const CATCH_PEST: uint32 := 2
  const HELP_CLEAN: uint32 := 3
  const STEAL: uint32 := 4

  /** The nine digested fields, and the quantity, which is not digested. */
  datatype Request = Request(
    action: uint32, visitor: uint64, owner: uint64, visitId: bytes, plot: uint32, pest: uint32,
    crop: uint32, viewEpoch: bytes, viewSeq: uint64, quantity: uint32)

  /** The checks of StealRequest.validate and ActionRequest.validate on these fields,
      with the constants each Execute passes for the fields it does not have. */
  predicate Valid(r: Request) {
    && r.visitor != 0 && r.owner != 0 && |r.visitId| == 16 && r.plot != 0
    && (if r.action == STEAL then r.crop != 0 && r.quantity != 0 && |r.viewEpoch| == 16 && r.pest == 0
        else
          && (r.action == APPLY_PEST || r.action == CATCH_PEST || r.action == HELP_CLEAN)
          && (r.action == APPLY_PEST <==> r.pest != 0)
          && r.crop == 0 && r.viewEpoch == [] && r.viewSeq == 0 && r.quantity == 0)
  }

  /** What validate refuses, field by field. */
  lemma RefusedIff(r: Request)
    ensures !Valid(r) <==>
      || r.visitor == 0 || r.owner == 0 || |r.visitId| != 16 || r.plot == 0
      || !(1 <= r.action <= 4)
      || (r.action == 4 && (r.crop == 0 || r.quantity == 0 || |r.viewEpoch| != 16 || r.pest != 0))
      || (r.action == 1 && r.pest == 0)
      || ((r.action == 2 || r.action == 3) && r.pest != 0)
      || (r.action != 4 && (r.crop != 0 || r.viewEpoch != [] || r.viewSeq != 0 || r.quantity != 0))
  {}

  function Preimage(r: Request): bytes {
    BE(r.action, 4) + BE(r.visitor, 8) + BE(r.owner, 8) + r.visitId
    + BE(r.plot, 4) + BE(r.pest, 4) + BE(r.crop, 4) + r.viewEpoch + BE(r.viewSeq, 8)
  }

  /** Same preimage: same digested fields. */
  predicate SameIdentity(a: Request, b: Request) {
    a.(quantity := 0) == b.(quantity := 0)
  }

  /** Where each field lies. */
  lemma Layout(r: Request)
    requires |r.visitId| == 16
    ensures var p := Preimage(r);
      && |p| == 56 + |r.viewEpoch|
      && p[0..4] == BE(r.action, 4) && p[4..12] == BE(r.visitor, 8) && p[12..20] == BE(r.owner, 8)
      && p[20..36] == r.visitId && p[36..40] == BE(r.plot, 4) && p[40..44] == BE(r.pest, 4)
      && p[44..48] == BE(r.crop, 4) && p[48..48 + |r.viewEpoch|] == r.viewEpoch
      && p[48 + |r.viewEpoch|..] == BE(r.viewSeq, 8)
  {}

  function Word(body: bytes, from: nat, to: nat): nat
    requires from <= to <= |body|
  {
    FromBE(body[from..to])
  }

  /** What the offsets of a preimage hold. */
  predicate Holds(body: bytes, r: Request) {
    && |body| == 56 + |r.viewEpoch|
    && Word(body, 0, 4) == r.action && Word(body, 4, 12) == r.visitor && Word(body, 12, 20) == r.owner
    && body[20..36] == r.visitId && Word(body, 36, 40) == r.plot && Word(body, 40, 44) == r.pest
    && Word(body, 44, 48) == r.crop && body[48..|body| - 8] == r.viewEpoch
    && Word(body, |body| - 8, |body|) == r.viewSeq
  }

  lemma PreimageHolds(r: Request)
    requires |r.visitId| == 16
    ensures Holds(Preimage(r), r)
  {
    Widths();
    Layout(r);
    ReadWritten(r.action, 4);
    ReadWritten(r.visitor, 8);
    ReadWritten(r.owner, 8);
    ReadWritten(r.plot, 4);
    ReadWritten(r.pest, 4);
    ReadWritten(r.crop, 4);
    ReadWritten(r.viewSeq, 8);
    var p := Preimage(r);
    assert p[|p| - 8..|p|] == p[48 + |r.viewEpoch|..];
  }

  /** RequestDigest's appends: every digested field can be read back at its offset. */
  method BuildPreimage(r: Request) returns (body: bytes)
    ensures body == Preimage(r)
    ensures |r.visitId| == 16 ==> Holds(body, r)
  {
    hide Holds, BE;
    body := [];
    body := body + BE(r.action, 4);
    body := body + BE(r.visitor, 8);
    body := body + BE(r.owner, 8);
    body := body + r.visitId;
    body := body + BE(r.plot, 4);
    body := body + BE(r.pest, 4);
    body := body + BE(r.crop, 4);
    body := body + r.viewEpoch;
    body := body + BE(r.viewSeq, 8);
    if |r.visitId| == 16 { PreimageHolds(r); }
  }

  /** For requests that pass validate, the preimage determines all nine digested
      fields and nothing else: two requests share it exactly when they differ at most
      in quantity. */
  lemma PreimageDetermines(a: Request, b: Request)
    requires Valid(a) && Valid(b)
    ensures Preimage(a) == Preimage(b) <==> SameIdentity(a, b)
  {
    PreimageHolds(a);
    PreimageHolds(b);
  }
}
