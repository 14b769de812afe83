/** The payload of a gateway ticket: what encodeTicket lays out and what
    parseTicketPayload accepts. The HMAC and the base64 text around it are opaque. */
module Ticket {
  import opened Common
  import opened Bytes

  const VERSION: byte := 1
  const MAX_ISSUE_LEN: nat := 64
  const MAX_GATEWAY_LEN: nat := 64
  const KEY_LEN: nat := 32
  const HEADER_LEN: nat := 57

  type int64 = x: int | -0x8000_0000_0000_0000 <= x < 0x8000_0000_0000_0000
  type Digest = b: bytes | |b| == 32 witness seq(32, _ => 0)

  /** An instant as whole Unix seconds and the nanoseconds within the second. */
  datatype Time = Time(seconds: int64, nanos: nat)

  /** Go's zero time, the first of January of year one. */
  const ZERO_TIME := Time(-62135596800, 0)

  datatype Claims = Claims(
    player: uint64, session: Digest, generation: uint64, expires: Time, gateway: bytes, issue: bytes)

  /** uint64(x) and int64(x): two's complement. */
  function ToUnsigned(x: int64): uint64 { if x >= 0 then x else x + 0x1_0000_0000_0000_0000 }
  function ToSigned(x: uint64): int64 { if x < 0x8000_0000_0000_0000 then x else x - 0x1_0000_0000_0000_0000 }

  function U16String(s: bytes): bytes { BE(|s| % 0x1_0000, 2) + s }

  /** The byte layout. */
  function Layout(c: Claims): bytes {
    [VERSION] + BE(c.player, 8) + c.session + BE(c.generation, 8) + BE(ToUnsigned(c.expires.seconds), 8)
    + U16String(c.gateway) + U16String(c.issue)
  }

  /** The 64-bit word at an offset, most significant byte first. */
  predicate WordAt(p: bytes, at: nat, value: int) {
    && at + 8 <= |p|
    && value ==
      p[at] as int * 0x100_0000_0000_0000 + p[at + 1] as int * 0x1_0000_0000_0000
      + p[at + 2] as int * 0x100_0000_0000 + p[at + 3] as int * 0x1_0000_0000
      + p[at + 4] as int * 0x100_0000 + p[at + 5] as int * 0x1_0000 + p[at + 6] as int * 0x100 + p[at + 7] as int
  }

  /** Where each claim lies: version, player, session, generation and the expiry in
      two's complement at fixed offsets, then each string behind its two-byte length,
      and nothing more. */
  predicate Lies(p: bytes, c: Claims) {
    && |p| == 61 + |c.gateway| + |c.issue|
    && p[0] == 1
    && WordAt(p, 1, c.player)
    && p[9..41] == c.session
    && WordAt(p, 41, c.generation)
    && WordAt(p, 49, if c.expires.seconds >= 0 then c.expires.seconds else c.expires.seconds + 0x1_0000_0000_0000_0000)
    && p[57] as int * 0x100 + p[58] == |c.gateway|
    && p[59..59 + |c.gateway|] == c.gateway
    && p[59 + |c.gateway|] as int * 0x100 + p[60 + |c.gateway|] == |c.issue|
    && p[61 + |c.gateway|..] == c.issue
  }

  /** encodeTicket up to the MAC: the checks and the appends. */
  method EncodePayload(key: bytes, c: Claims) returns (payload: Option<bytes>)
    ensures payload.Some? <==>
      |key| >= 32 && c.player != 0 && c.generation != 0
      && !(c.expires.seconds == -62135596800 && c.expires.nanos == 0)
      && 1 <= |c.gateway| <= 64 && 1 <= |c.issue| <= 64
    ensures payload.Some? ==> payload.value == Layout(c) && Lies(payload.value, c)
  {
    hide Lies, BE, U16String;
    if |key| < KEY_LEN { return None; }
    if c.player == 0 || c.generation == 0 || c.expires == ZERO_TIME { return None; }
    if c.gateway == [] || c.issue == [] { return None; }
    if |c.gateway| > MAX_GATEWAY_LEN || |c.issue| > MAX_ISSUE_LEN { return None; }
    var body := [VERSION];
    body := body + BE(c.player, 8);
    body := body + c.session;
    body := body + BE(c.generation, 8);
    body := body + BE(ToUnsigned(c.expires.seconds), 8);
    body := body + U16String(c.gateway);
    body := body + U16String(c.issue);
    LayoutLies(c, body);
    return Some(body);
  }

  /** readU16String: the string and the offset behind it. */
  function ReadU16(src: bytes, offset: nat): (r: Option<(bytes, nat)>)
    ensures r.Some? ==> r.value.1 == offset + 2 + |r.value.0| <= |src|
  {
    if offset + 2 > |src| then None
    else
      var n := FromBE(src[offset..offset + 2]);
      if offset + 2 + n > |src| then None
      else Some((src[offset + 2..offset + 2 + n], offset + 2 + n))
  }

  /** Reading where a string was appended finds it, whatever surrounds it. */
  lemma ReadAppended(before: bytes, s: bytes, after: bytes)
    requires |s| < 0x1_0000
    ensures ReadU16(before + U16String(s) + after, |before|) == Some((s, |before| + 2 + |s|))
  {
    hide BE, FromBE, Pow256;
    Widths();
    ReadWritten(|s|, 2);
    var src := before + U16String(s) + after;
    var n := BE(|s|, 2);
    assert src == before + n + (s + after);
    Middle(before, n, s + after);
    assert src == (before + n) + s + after;
    Middle(before + n, s, after);
  }

  lemma Middle(a: bytes, b: bytes, c: bytes)
    ensures (a + b + c)[|a|..|a| + |b|] == b
  {
  }

  /** A string that was read is laid out at that offset. */
  lemma ReadMeans(src: bytes, offset: nat)
    requires ReadU16(src, offset).Some?
    ensures var (s, next) := ReadU16(src, offset).value;
      |s| < 0x1_0000 && src[offset..next] == U16String(s)
  {
    Widths();
    WriteRead(src[offset..offset + 2]);
    var (s, next) := ReadU16(src, offset).value;
    assert |s| == FromBE(src[offset..offset + 2]);
    assert src[offset..next] == src[offset..offset + 2] + src[offset + 2..next];
  }

  /** What parsing can return: complete claims at a whole second. */
  predicate Readable(c: Claims) {
    && c.player != 0 && c.generation != 0 && c.expires.nanos == 0
    && 0 < |c.gateway| < 0x1_0000 && 0 < |c.issue| < 0x1_0000
  }

  lemma EightBytes(b: bytes)
    requires |b| == 8
    ensures FromBE(b) < 0x1_0000_0000_0000_0000
  {
    WriteRead(b);
    Widths();
  }

  function Word(payload: bytes, offset: nat): uint64
    requires offset + 8 <= |payload|
  {
    EightBytes(payload[offset..offset + 8]);
    FromBE(payload[offset..offset + 8])
  }

  function Parse(payload: bytes): Option<Claims> {
    if |payload| < HEADER_LEN + 4 || payload[0] != VERSION then None
    else
      var gateway := ReadU16(payload, HEADER_LEN);
      if gateway.None? then None
      else
        var issue := ReadU16(payload, gateway.value.1);
        if issue.None? then None
        else
          var c := Claims(Word(payload, 1), payload[9..41], Word(payload, 41), Time(ToSigned(Word(payload, 49)), 0),
                          gateway.value.0, issue.value.0);
          if issue.value.1 != |payload| || c.player == 0 || c.generation == 0 || c.gateway == [] || c.issue == []
          then None else Some(c)
  }

  /** parseTicketPayload, advancing an offset. */
  method ParseTicketPayload(payload: bytes) returns (claims: Option<Claims>)
    ensures claims == Parse(payload)
    ensures claims.Some? ==> Lies(payload, claims.value) && claims.value.expires.nanos == 0
    ensures claims.Some? ==>
      claims.value.player != 0 && claims.value.generation != 0 && claims.value.gateway != [] && claims.value.issue != []
    ensures claims.None? ==> forall c: Claims :: Lies(payload, c) ==>
      c.player == 0 || c.generation == 0 || c.gateway == [] || c.issue == []
  {
    hide Lies;
    ParsedLies(payload);
    if |payload| < HEADER_LEN + 4 { return None; }
    if payload[0] != VERSION { return None; }
    var offset := 1;
    var player := Word(payload, offset);
    offset := offset + 8;
    var session := payload[offset..offset + 32];
    offset := offset + 32;
    var generation := Word(payload, offset);
    offset := offset + 8;
    var expires := Time(ToSigned(Word(payload, offset)), 0);
    offset := offset + 8;
    var gateway := ReadU16(payload, offset);
    if gateway.None? { return None; }
    offset := gateway.value.1;
    var issue := ReadU16(payload, offset);
    if issue.None? { return None; }
    offset := issue.value.1;
    if offset != |payload| || player == 0 || generation == 0 || gateway.value.0 == [] || issue.value.0 == [] {
      return None;
    }
    return Some(Claims(player, session, generation, expires, gateway.value.0, issue.value.0));
  }

  function Header(c: Claims): (h: bytes)
    ensures |h| == HEADER_LEN
  {
    [VERSION] + BE(c.player, 8) + c.session + BE(c.generation, 8) + BE(ToUnsigned(c.expires.seconds), 8)
  }

  lemma HeaderFields(c: Claims, p: bytes)
    requires |p| >= HEADER_LEN && p[..HEADER_LEN] == Header(c)
    ensures p[0] == VERSION && p[9..41] == c.session
    ensures Word(p, 1) == c.player && Word(p, 41) == c.generation && Word(p, 49) == ToUnsigned(c.expires.seconds)
  {
    Widths();
    var h := Header(c);
    assert p[1..9] == h[1..9] == BE(c.player, 8);
    assert p[9..41] == h[9..41] == c.session;
    assert p[41..49] == h[41..49] == BE(c.generation, 8);
    assert p[49..57] == h[49..57] == BE(ToUnsigned(c.expires.seconds), 8);
    ReadWritten(c.player, 8);
    ReadWritten(c.generation, 8);
    ReadWritten(ToUnsigned(c.expires.seconds), 8);
  }

  /** Parsing the layout of claims that can be read returns those claims. */
  lemma ParseOfLayout(c: Claims)
    requires Readable(c)
    ensures Parse(Layout(c)) == Some(c)
  {
    var p := Layout(c);
    assert p == Header(c) + U16String(c.gateway) + U16String(c.issue);
    assert p[..HEADER_LEN] == Header(c);
    HeaderFields(c, p);
    ReadAppended(Header(c), c.gateway, U16String(c.issue));
    ReadAppended(Header(c) + U16String(c.gateway), c.issue, []);
    assert p == Header(c) + U16String(c.gateway) + U16String(c.issue) + [];
  }

  lemma HeaderOfFields(p: bytes, c: Claims)
    requires |p| >= HEADER_LEN && p[0] == VERSION && c.session == p[9..41]
    requires c.player == Word(p, 1) && c.generation == Word(p, 41) && c.expires.seconds == ToSigned(Word(p, 49))
    ensures Header(c) == p[..HEADER_LEN]
  {
    WriteRead(p[1..9]);
    WriteRead(p[41..49]);
    WriteRead(p[49..57]);
    assert p[..57] == p[0..1] + p[1..9] + p[9..41] + p[41..49] + p[49..57];
  }

  /** The parser accepts exactly the byte layouts: a payload parses to `c` if and only
      if `c` can be read and the payload is, byte for byte, its layout. */
  lemma ParseExactly(payload: bytes, c: Claims)
    ensures Parse(payload) == Some(c) <==> Readable(c) && payload == Layout(c)
  {
    if Readable(c) && payload == Layout(c) {
      ParseOfLayout(c);
    }
    if Parse(payload) == Some(c) {
      HeaderOfFields(payload, c);
      var (gateway, afterGateway) := ReadU16(payload, HEADER_LEN).value;
      ReadMeans(payload, HEADER_LEN);
      ReadMeans(payload, afterGateway);
      assert payload == payload[..HEADER_LEN] + payload[HEADER_LEN..afterGateway] + payload[afterGateway..];
      assert payload[afterGateway..] == payload[afterGateway..|payload|];
    }
  }

  /** Eight bytes as the number they write. */
  lemma EightLie(b: bytes, p: bytes, at: nat)
    requires |b| == 8 && at + 8 <= |p| && p[at..at + 8] == b
    ensures WordAt(p, at, FromBE(b))
  {
    assert b == [p[at], p[at + 1], p[at + 2], p[at + 3], p[at + 4], p[at + 5], p[at + 6], p[at + 7]];
    assert FromBE(b[..1]) == b[0];
    assert b[..2][..1] == b[..1] && FromBE(b[..2]) == b[0] as int * 0x100 + b[1];
    assert b[..3][..2] == b[..2] && FromBE(b[..3]) == FromBE(b[..2]) * 0x100 + b[2];
    assert b[..4][..3] == b[..3] && FromBE(b[..4]) == FromBE(b[..3]) * 0x100 + b[3];
    assert b[..5][..4] == b[..4] && FromBE(b[..5]) == FromBE(b[..4]) * 0x100 + b[4];
    assert b[..6][..5] == b[..5] && FromBE(b[..6]) == FromBE(b[..5]) * 0x100 + b[5];
    assert b[..7][..6] == b[..6] && FromBE(b[..7]) == FromBE(b[..6]) * 0x100 + b[6];
    assert b[..8] == b && FromBE(b) == FromBE(b[..7]) * 0x100 + b[7];
  }

  lemma TwoLie(b: bytes)
    requires |b| == 2
    ensures FromBE(b) == b[0] as int * 0x100 + b[1]
  {
    assert b[..1] == [b[0]] && FromBE(b[..1]) == b[0];
  }

  lemma HeaderLies(c: Claims, p: bytes)
    requires |p| >= 57 && p[..57] == Header(c)
    ensures p[0] == 1 && p[9..41] == c.session
    ensures WordAt(p, 1, c.player) && WordAt(p, 41, c.generation) && WordAt(p, 49, ToUnsigned(c.expires.seconds))
  {
    hide WordAt;
    var h := Header(c);
    HeaderFields(c, p);
    EightLie(p[1..9], p, 1);
    EightLie(p[41..49], p, 41);
    EightLie(p[49..57], p, 49);
  }

  lemma StringLies(s: bytes, p: bytes, at: nat)
    requires |s| < 0x1_0000 && at + 2 + |s| <= |p| && p[at..at + 2 + |s|] == U16String(s)
    ensures p[at] as int * 0x100 + p[at + 1] == |s| && p[at + 2..at + 2 + |s|] == s
  {
    Widths();
    ReadWritten(|s|, 2);
    TwoLie(BE(|s|, 2));
    var t := U16String(s);
    assert p[at] == t[0] && p[at + 1] == t[1];
    assert t[2..] == s && p[at + 2..at + 2 + |s|] == t[2..];
  }

  /** The layout puts every claim where it belongs. */
  lemma LayoutLies(c: Claims, p: bytes)
    requires p == Layout(c) && |c.gateway| < 0x1_0000 && |c.issue| < 0x1_0000
    ensures Lies(p, c)
  {
    hide WordAt;
    var g := |c.gateway|;
    assert p == Header(c) + U16String(c.gateway) + U16String(c.issue);
    HeaderLies(c, p);
    assert p[57..59 + g] == U16String(c.gateway);
    assert p[59 + g..61 + g + |c.issue|] == U16String(c.issue);
    StringLies(c.gateway, p, 57);
    StringLies(c.issue, p, 59 + g);
    assert p[61 + g..] == p[61 + g..61 + g + |c.issue|];
  }

  /** One payload is never two claims, but for the nanoseconds it does not carry. */
  lemma LiesOnce(p: bytes, c: Claims, d: Claims)
    requires Lies(p, c) && Lies(p, d)
    ensures c == d.(expires := Time(d.expires.seconds, c.expires.nanos))
  {
  }

  lemma WordRead(p: bytes, at: nat, value: uint64)
    requires WordAt(p, at, value)
    ensures Word(p, at) == value
  {
    EightLie(p[at..at + 8], p, at);
  }

  /** Where complete claims lie, they are parsed. */
  lemma LiesParses(p: bytes, c: Claims)
    requires Lies(p, c) && c.player != 0 && c.generation != 0 && c.gateway != [] && c.issue != []
    ensures Parse(p).Some?
  {
    hide WordAt;
    TwoLie(p[57..59]);
    var g := |c.gateway|;
    TwoLie(p[59 + g..61 + g]);
    assert ReadU16(p, 57) == Some((c.gateway, 59 + g));
    assert p[61 + g..61 + g + |c.issue|] == c.issue;
    assert ReadU16(p, 59 + g) == Some((c.issue, |p|));
    WordRead(p, 1, c.player);
    WordRead(p, 41, c.generation);
  }

  lemma ParsedLies(p: bytes)
    ensures Parse(p).Some? ==> Lies(p, Parse(p).value) && Readable(Parse(p).value)
    ensures Parse(p).None? ==> forall c: Claims :: Lies(p, c) ==>
      c.player == 0 || c.generation == 0 || c.gateway == [] || c.issue == []
  {
    hide Lies, Parse;
    if Parse(p).Some? {
      ParseExactly(p, Parse(p).value);
      LayoutLies(Parse(p).value, p);
    } else {
      forall c: Claims | Lies(p, c) ensures c.player == 0 || c.generation == 0 || c.gateway == [] || c.issue == [] {
        if c.player != 0 && c.generation != 0 && c.gateway != [] && c.issue != [] { LiesParses(p, c); }
      }
    }
  }

  /** Encode, then parse: the same claims with the expiry cut to whole seconds. */
  lemma RoundTrip(c: Claims)
    requires c.player != 0 && c.generation != 0
    requires 0 < |c.gateway| <= MAX_GATEWAY_LEN && 0 < |c.issue| <= MAX_ISSUE_LEN
    ensures Parse(Layout(c)) == Some(c.(expires := Time(c.expires.seconds, 0)))
  {
    var cut := c.(expires := Time(c.expires.seconds, 0));
    assert Layout(cut) == Layout(c);
    ParseOfLayout(cut);
  }
}
