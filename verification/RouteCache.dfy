/** A replica of the shard route table, fed by snapshots and deltas. Every change
    builds a new table and swaps the reference; a table once handed out is never written. */
module RouteCache {
  import opened Common
  import opened Bytes

  const SHARD_COUNT := 4096
  const HASH_VERSION := 1
  const ASSIGNMENT_VERSION := 1

  datatype WireState = WireActive | WirePreparing | WireUnassigned | WireOther

  datatype RouteState = Active | Preparing | Unassigned

  /** One encoded route. */
  datatype WireRoute = WireRoute(
    shard: nat, zone: string, endpoint: string, ownerEpoch: nat, routeVersion: nat, state: WireState,
    leaseTerm: nat, leaseId: seq<byte>, leaseExpiresMs: int,
    previousZone: string, transitionId: seq<byte>, updatedMs: int)

  datatype RouteEntry = RouteEntry(
    shard: nat, zone: string, endpoint: string, ownerEpoch: nat, routeVersion: nat, state: RouteState,
    leaseTerm: nat, leaseId: string, leaseExpiresMs: int,
    previousZone: string, transitionId: string, updatedMs: int)

  datatype WireSnapshot = WireSnapshot(
    shardCount: nat, hashVersion: nat, assignmentVersion: nat, mapVersion: nat, term: nat, index: nat,
    entries: seq<Option<WireRoute>>)

  datatype RouteBatch = RouteBatch(previous: nat, version: nat, routes: seq<Option<WireRoute>>)

  datatype Health = Healthy | Draining | Dead | Unspecified

  datatype ZoneEntry = ZoneEntry(zone: string, health: Health)

  datatype ZoneBatch = ZoneBatch(previous: nat, version: nat, zones: seq<Option<ZoneEntry>>)

  datatype Zones = Zones(version: nat, zones: map<string, Health>)

  // ------------------------------------------------------------- decoding

  /** The text of a UUID, empty for none, nothing for a wrong length. */
  function FormatUuid(value: seq<byte>): Option<string> {
    if |value| == 0 then Some("")
    else if |value| != 16 then None
    else
      var raw := Hex(value);
      Some(raw[..8] + "-" + raw[8..12] + "-" + raw[12..16] + "-" + raw[16..20] + "-" + raw[20..])
  }

  /** The text loses nothing: two identifiers with the same text are the same. */
  lemma UuidTextDetermines(a: seq<byte>, b: seq<byte>)
    requires FormatUuid(a).Some? && FormatUuid(a) == FormatUuid(b)
    ensures a == b
  {
    if a != [] && b != [] {
      var t := FormatUuid(a).value;
      var x, y := Hex(a), Hex(b);
      assert t[..8] == x[..8] == y[..8];
      assert t[9..13] == x[8..12] == y[8..12];
      assert t[14..18] == x[12..16] == y[12..16];
      assert t[19..23] == x[16..20] == y[16..20];
      assert t[24..] == x[20..] == y[20..];
      assert x == x[..8] + x[8..12] + x[12..16] + x[16..20] + x[20..];
      assert y == y[..8] + y[8..12] + y[12..16] + y[16..20] + y[20..];
      HexApart(a, b);
    } else {
      assert |FormatUuid(a).value| == |FormatUuid(b).value|;
    }
  }

  /** The text of an identifier: nothing for none, otherwise two digits for each of its
      sixteen bytes and a dash behind the fourth, sixth, eighth and tenth. */
  predicate IsUuidText(value: seq<byte>, t: string) {
    if value == [] then t == ""
    else
      && |value| == 16 && |t| == 36 && t[8] == '-' && t[13] == '-' && t[18] == '-' && t[23] == '-'
      && forall i :: 0 <= i < 16 ==>
           var at := 2 * i + if i < 4 then 0 else if i < 6 then 1 else if i < 8 then 2 else if i < 10 then 3 else 4;
           IsHexDigit(t[at], value[i] as nat / 16) && IsHexDigit(t[at + 1], value[i] as nat % 16)
  }

  lemma FormattedIsText(value: seq<byte>)
    ensures FormatUuid(value).Some? <==> |value| == 0 || |value| == 16
    ensures FormatUuid(value).Some? ==> IsUuidText(value, FormatUuid(value).value)
  {
    hide Hex, IsHexDigit;
    if |value| == 16 {
      var t, x := FormatUuid(value).value, Hex(value);
      assert t[..8] == x[..8] && t[9..13] == x[8..12] && t[14..18] == x[12..16] && t[19..23] == x[16..20] && t[24..] == x[20..];
      forall i | 0 <= i < 16
        ensures var at := 2 * i + if i < 4 then 0 else if i < 6 then 1 else if i < 8 then 2 else if i < 10 then 3 else 4;
          IsHexDigit(t[at], value[i] as nat / 16) && IsHexDigit(t[at + 1], value[i] as nat % 16)
      {
        HexAt(value, i);
        var k := 2 * i;
        if i < 4 { assert t[..8][k] == x[..8][k] && t[..8][k + 1] == x[..8][k + 1]; }
        else if i < 6 { assert t[9..13][k - 8] == x[8..12][k - 8] && t[9..13][k - 7] == x[8..12][k - 7]; }
        else if i < 8 { assert t[14..18][k - 12] == x[12..16][k - 12] && t[14..18][k - 11] == x[12..16][k - 11]; }
        else if i < 10 { assert t[19..23][k - 16] == x[16..20][k - 16] && t[19..23][k - 15] == x[16..20][k - 15]; }
        else { assert t[24..][k - 20] == x[20..][k - 20] && t[24..][k - 19] == x[20..][k - 19]; }
      }
    }
  }

  function DecodeState(s: WireState): Option<RouteState> {
    match s
    case WireActive => Some(Active)
    case WirePreparing => Some(Preparing)
    case WireUnassigned => Some(Unassigned)
    case WireOther => None
  }

  function DecodeRoute(w: Option<WireRoute>): Option<RouteEntry> {
    if w.None? || w.value.routeVersion == 0 || w.value.ownerEpoch == 0 then None else
    var r := w.value;
    var state, lease, transition := DecodeState(r.state), FormatUuid(r.leaseId), FormatUuid(r.transitionId);
    if state.None? || lease.None? || transition.None? then None
    else if state.value.Active? && (r.zone == "" || r.endpoint == "" || lease.value == "") then None
    else Some(RouteEntry(r.shard, r.zone, r.endpoint, r.ownerEpoch, r.routeVersion, state.value,
                         r.leaseTerm, lease.value, r.leaseExpiresMs, r.previousZone, transition.value, r.updatedMs))
  }

  /** Which encoded routes are accepted, and what becomes of each field. */
  lemma DecodesExactly(w: Option<WireRoute>)
    ensures DecodeRoute(w).Some? <==>
      && w.Some? && w.value.routeVersion >= 1 && w.value.ownerEpoch >= 1 && w.value.state != WireOther
      && (|w.value.leaseId| == 0 || |w.value.leaseId| == 16) && (|w.value.transitionId| == 0 || |w.value.transitionId| == 16)
      && (w.value.state == WireActive ==> w.value.zone != "" && w.value.endpoint != "" && |w.value.leaseId| == 16)
    ensures DecodeRoute(w).Some? ==>
      var r, e := w.value, DecodeRoute(w).value;
      && e.shard == r.shard && e.zone == r.zone && e.endpoint == r.endpoint && e.ownerEpoch == r.ownerEpoch
      && e.routeVersion == r.routeVersion && e.leaseTerm == r.leaseTerm && e.leaseExpiresMs == r.leaseExpiresMs
      && e.previousZone == r.previousZone && e.updatedMs == r.updatedMs
      && (e.state == Active <==> r.state == WireActive) && (e.state == Preparing <==> r.state == WirePreparing)
      && IsUuidText(r.leaseId, e.leaseId) && IsUuidText(r.transitionId, e.transitionId)
  {
    if w.Some? {
      FormattedIsText(w.value.leaseId);
      FormattedIsText(w.value.transitionId);
      hide FormatUuid, IsUuidText;
      if w.value.leaseId != [] && FormatUuid(w.value.leaseId).Some? { TextIsThere(w.value.leaseId); }
    }
  }

  lemma TextIsThere(value: seq<byte>)
    requires value != [] && FormatUuid(value).Some?
    ensures FormatUuid(value).value != ""
  {
    FormattedIsText(value);
  }

  // ---------------------------------------------------- what a table may become

  /** A table as a value. */
  datatype Table = Table(version: nat, term: nat, index: nat, entries: seq<RouteEntry>)

  predicate Shaped(entries: seq<RouteEntry>) {
    |entries| == SHARD_COUNT && forall s :: 0 <= s < SHARD_COUNT ==> entries[s].shard == s
  }

  /** The encoded snapshot is one decodeSnapshot accepts. */
  predicate GoodSnapshot(w: Option<WireSnapshot>) {
    && w.Some? && w.value.shardCount == SHARD_COUNT && w.value.hashVersion == HASH_VERSION
    && w.value.assignmentVersion == ASSIGNMENT_VERSION && w.value.mapVersion != 0
    && |w.value.entries| == SHARD_COUNT
    && forall s :: 0 <= s < SHARD_COUNT ==>
         DecodeRoute(w.value.entries[s]).Some? && DecodeRoute(w.value.entries[s]).value.shard == s
  }

  predicate Holds(w: WireSnapshot, t: Table) {
    && t.version == w.mapVersion && t.term == w.term && t.index == w.index && |t.entries| == |w.entries|
    && forall s :: 0 <= s < |t.entries| ==> DecodeRoute(w.entries[s]) == Some(t.entries[s])
  }

  predicate GoodRoute(entries: seq<RouteEntry>, w: Option<WireRoute>) {
    && DecodeRoute(w).Some? && DecodeRoute(w).value.shard < |entries|
    && DecodeRoute(w).value.routeVersion > entries[DecodeRoute(w).value.shard].routeVersion
  }

  predicate Apart(routes: seq<Option<WireRoute>>, i: nat, j: nat)
    requires i < |routes| && j < |routes|
  {
    !(routes[i].Some? && routes[j].Some? && routes[i].value.shard == routes[j].value.shard)
  }

  /** Every route decodes, raises its shard's version, and no shard comes twice. */
  predicate GoodRoutes(entries: seq<RouteEntry>, routes: seq<Option<WireRoute>>) {
    && (forall i :: 0 <= i < |routes| ==> GoodRoute(entries, routes[i]))
    && (forall i, j :: 0 <= i < j < |routes| ==> Apart(routes, i, j))
  }

  predicate Touches(w: Option<WireRoute>, s: nat) { w.Some? && w.value.shard == s }

  /** `after` is `before` with the routes laid over it, and nothing else. */
  ghost predicate Patched(before: seq<RouteEntry>, routes: seq<Option<WireRoute>>, after: seq<RouteEntry>) {
    && |after| == |before|
    && (forall i :: 0 <= i < |routes| && routes[i].Some? && routes[i].value.shard < |after| ==>
          Some(after[routes[i].value.shard]) == DecodeRoute(routes[i]))
    && (forall s :: 0 <= s < |after| && (forall i :: 0 <= i < |routes| ==> !Touches(routes[i], s)) ==> after[s] == before[s])
  }

  datatype Verdict = Applied | Ignored | Resync

  function BatchVerdict(current: Option<Table>, batch: Option<RouteBatch>): Verdict {
    if batch.None? || batch.value.version <= batch.value.previous || current.None? then Resync
    else if batch.value.version <= current.value.version then Ignored
    else if batch.value.previous != current.value.version then Resync
    else if batch.value.routes == [] || !GoodRoutes(current.value.entries, batch.value.routes) then Resync
    else Applied
  }

  /** One message and the table before and after it. */
  datatype Message = Full(snapshot: Option<WireSnapshot>) | Delta(batch: Option<RouteBatch>)

  ghost predicate Steps(t: Option<Table>, m: Message, u: Option<Table>) {
    match m
    case Full(w) => if GoodSnapshot(w) then u.Some? && Holds(w.value, u.value) else u == t
    case Delta(b) =>
      if BatchVerdict(t, b).Applied? then
        && u.Some? && u.value.version == b.value.version && Patched(t.value.entries, b.value.routes, u.value.entries)
        && u.value.term == t.value.term && u.value.index == t.value.index
      else u == t
  }

  /** What one snapshot message does. */
  lemma FullMeans(t: Option<Table>, w: Option<WireSnapshot>, u: Option<Table>)
    requires Steps(t, Full(w), u)
    ensures
      if && w.Some? && w.value.shardCount == 4096 && w.value.hashVersion == 1 && w.value.assignmentVersion == 1
         && w.value.mapVersion >= 1 && |w.value.entries| == 4096
         && forall s :: 0 <= s < 4096 ==>
              DecodeRoute(w.value.entries[s]).Some? && w.value.entries[s].Some? && w.value.entries[s].value.shard == s
      then
        && u.Some? && u.value.version == w.value.mapVersion && u.value.term == w.value.term
        && u.value.index == w.value.index && |u.value.entries| == 4096
        && forall s :: 0 <= s < 4096 ==> Some(u.value.entries[s]) == DecodeRoute(w.value.entries[s])
      else u == t
  {
    if w.Some? {
      forall r | r in w.value.entries && DecodeRoute(r).Some? ensures r.Some? && DecodeRoute(r).value.shard == r.value.shard {
        DecodedShard(r);
      }
    }
    hide DecodeRoute;
  }

  /** What one batch does, and that no table comes of it unless all its routes are good
      and it continues the table's own version. */
  lemma DeltaMeans(t: Option<Table>, b: Option<RouteBatch>, u: Option<Table>)
    requires Steps(t, Delta(b), u)
    ensures
      if && t.Some? && b.Some? && t.value.version == b.value.previous < b.value.version && b.value.routes != []
         && (forall i :: 0 <= i < |b.value.routes| ==>
               && DecodeRoute(b.value.routes[i]).Some? && DecodeRoute(b.value.routes[i]).value.shard < |t.value.entries|
               && t.value.entries[DecodeRoute(b.value.routes[i]).value.shard].routeVersion
                    < DecodeRoute(b.value.routes[i]).value.routeVersion)
         && (forall i, j :: 0 <= i < j < |b.value.routes| && b.value.routes[i].Some? && b.value.routes[j].Some? ==>
               b.value.routes[i].value.shard != b.value.routes[j].value.shard)
      then
        && BatchVerdict(t, b).Applied? && u.Some? && u.value.version == b.value.version
        && u.value.term == t.value.term && u.value.index == t.value.index && |u.value.entries| == |t.value.entries|
        && (forall i :: 0 <= i < |b.value.routes| ==>
              && DecodeRoute(b.value.routes[i]).value.shard < |u.value.entries|
              && u.value.entries[DecodeRoute(b.value.routes[i]).value.shard] == DecodeRoute(b.value.routes[i]).value)
        && (forall s :: 0 <= s < |u.value.entries| && (forall r :: r in b.value.routes && r.Some? ==> r.value.shard != s) ==>
              u.value.entries[s] == t.value.entries[s])
      else
        && u == t && !BatchVerdict(t, b).Applied?
        && (BatchVerdict(t, b).Ignored? <==>
              t.Some? && b.Some? && b.value.previous < b.value.version <= t.value.version)
  {
    if t.Some? && b.Some? {
      var routes := b.value.routes;
      forall r | r in routes && DecodeRoute(r).Some? ensures r.Some? && DecodeRoute(r).value.shard == r.value.shard {
        DecodedShard(r);
      }
      hide DecodeRoute;
      assert GoodRoutes(t.value.entries, routes) ==>
        forall i, j :: 0 <= i < j < |routes| ==> Apart(routes, i, j);
      if BatchVerdict(t, b).Applied? {
        forall i, j | 0 <= i < j < |routes| && routes[i].Some? && routes[j].Some?
          ensures routes[i].value.shard != routes[j].value.shard
        {
          assert Apart(routes, i, j);
        }
        forall i | 0 <= i < |routes| ensures GoodRoute(t.value.entries, routes[i]) {}
      }
    }
  }

  function Incoming(zones: seq<Option<ZoneEntry>>): map<string, Health> {
    if zones == [] then map[]
    else if zones[|zones| - 1].None? then Incoming(zones[..|zones| - 1])
    else Incoming(zones[..|zones| - 1])[zones[|zones| - 1].value.zone := zones[|zones| - 1].value.health]
  }

  predicate GoodZone(z: Option<ZoneEntry>) { z.Some? && z.value.zone != "" && !z.value.health.Unspecified? }

  predicate GoodZones(zones: seq<Option<ZoneEntry>>) {
    && (forall i :: 0 <= i < |zones| ==> GoodZone(zones[i]))
    && (forall i, j :: 0 <= i < j < |zones| ==>
          !(zones[i].Some? && zones[j].Some? && zones[i].value.zone == zones[j].value.zone))
  }

  /** A batch whose previous version is 0 is the whole list and always replaces. */
  function ZonesVerdict(current: Option<Zones>, batch: Option<ZoneBatch>): Verdict {
    if batch.None? || batch.value.version <= batch.value.previous || !GoodZones(batch.value.zones) then Resync
    else if batch.value.previous == 0 then Applied
    else
      var v := if current.None? then 0 else current.value.version;
      if batch.value.version <= v then Ignored else if batch.value.previous != v then Resync else Applied
  }

  function AfterZones(current: Option<Zones>, batch: Option<ZoneBatch>): Option<Zones> {
    if !ZonesVerdict(current, batch).Applied? then current
    else
      var b := batch.value;
      Some(Zones(b.version, (if b.previous == 0 || current.None? then map[] else current.value.zones) + Incoming(b.zones)))
  }

  // ------------------------------------------------------------- the cache

  /** The table readers hold: the entries are shared by reference. */
  datatype Snapshot = Snapshot(version: nat, term: nat, index: nat, entries: array<RouteEntry>)

  datatype Resolved = Route(entry: RouteEntry) | Unavailable | Stale

  class Cache {
    var snapshot: Option<Snapshot>
    var availability: Option<Zones>
    var freshUntil: int

    constructor ()
      ensures snapshot.None? && availability.None? && freshUntil == 0
    {
      snapshot, availability, freshUntil := None, None, 0;
    }

    /** The arrays readers may be looking at. */
    ghost function Shared(): set<object>
      reads this
    {
      if snapshot.Some? then {snapshot.value.entries} else {}
    }

    ghost function Value(): Option<Table>
      reads this, Shared()
    {
      if snapshot.None? then None
      else Some(Table(snapshot.value.version, snapshot.value.term, snapshot.value.index, snapshot.value.entries[..]))
    }

    ghost predicate Valid()
      reads this, Shared()
    {
      snapshot.Some? ==> snapshot.value.entries.Length == SHARD_COUNT && Shaped(snapshot.value.entries[..])
    }

    method MarkFresh(now: int, ttl: int)
      modifies this`freshUntil
      ensures freshUntil == now + ttl
    {
      freshUntil := now + ttl;
    }

    method DecodeSnapshot(w: Option<WireSnapshot>) returns (s: Option<Snapshot>)
      ensures s.Some? <==> GoodSnapshot(w)
      ensures s.Some? ==> fresh(s.value.entries) && s.value.entries.Length == SHARD_COUNT
      ensures s.Some? ==>
        Holds(w.value, Table(s.value.version, s.value.term, s.value.index, s.value.entries[..]))
    {
      if w.None? || w.value.shardCount != SHARD_COUNT || w.value.hashVersion != HASH_VERSION
         || w.value.assignmentVersion != ASSIGNMENT_VERSION || w.value.mapVersion == 0
         || |w.value.entries| != SHARD_COUNT {
        return None;
      }
      hide DecodeRoute;
      var first := DecodeRoute(w.value.entries[0]);
      if first.None? { return None; }
      var entries := new RouteEntry[SHARD_COUNT](_ => first.value);
      var i := 0;
      while i < SHARD_COUNT
        invariant i <= SHARD_COUNT
        invariant forall k :: 0 <= k < i ==> DecodeRoute(w.value.entries[k]) == Some(entries[k]) && entries[k].shard == k
      {
        var entry := DecodeRoute(w.value.entries[i]);
        if entry.None? || entry.value.shard != i { return None; }
        entries[i] := entry.value;
        i := i + 1;
      }
      return Some(Snapshot(w.value.mapVersion, w.value.term, w.value.index, entries));
    }

    /** applySnapshot: an accepted snapshot replaces the table whatever its version; a
        refused one changes nothing. No array that existed is written. */
    method ApplySnapshot(w: Option<WireSnapshot>) returns (ok: bool)
      requires Valid()
      modifies this`snapshot
      ensures Valid() && ok == GoodSnapshot(w)
      ensures Steps(old(Value()), Full(w), Value())
      ensures !ok ==> snapshot == old(snapshot)
      ensures ok ==> fresh(snapshot.value.entries)
    {
      hide GoodSnapshot, DecodeRoute;
      var s := DecodeSnapshot(w);
      if s.None? { return false; }
      snapshot := s;
      SnapshotIsShaped(w, s.value.entries[..]);
      return true;
    }

    /** applyBatch: applied only when it extends the table's own version with good
        routes, then every named shard has its new route and every other shard its old
        one; otherwise the very same table stays. No array that existed is written. */
    method ApplyBatch(batch: Option<RouteBatch>) returns (ok: bool)
      requires Valid()
      modifies this`snapshot
      ensures Valid() && ok == !BatchVerdict(old(Value()), batch).Resync?
      ensures Steps(old(Value()), Delta(batch), Value())
      ensures !BatchVerdict(old(Value()), batch).Applied? ==> snapshot == old(snapshot)
      ensures BatchVerdict(old(Value()), batch).Applied? ==> fresh(snapshot.value.entries)
    {
      hide GoodRoutes, Patched, Shaped;
      if batch.None? || batch.value.version <= batch.value.previous { return false; }
      if snapshot.None? { return false; }
      var current := snapshot.value;
      if batch.value.version <= current.version { return true; }
      if batch.value.previous != current.version { return false; }
      var next, n := Overlay(current.entries, batch.value.routes);
      if next.None? || n == 0 { return false; }
      snapshot := Some(current.(entries := next.value, version := batch.value.version));
      return true;
    }

    /** The copy of applyBatch with the routes laid over it, one after the other. */
    method Overlay(entries: array<RouteEntry>, routes: seq<Option<WireRoute>>)
      returns (next: Option<array<RouteEntry>>, n: nat)
      requires entries.Length == SHARD_COUNT && Shaped(entries[..])
      ensures next.Some? <==> GoodRoutes(entries[..], routes)
      ensures next.Some? ==> fresh(next.value) && n == |routes| && next.value.Length == SHARD_COUNT
      ensures next.Some? ==> Shaped(next.value[..]) && Patched(entries[..], routes, next.value[..])
    {
      hide GoodRoutes, Patched, DecodeRoute, Shaped;
      ghost var before := entries[..];
      var copy := new RouteEntry[SHARD_COUNT](k requires 0 <= k < SHARD_COUNT reads entries => entries[k]);
      assert copy[..] == before;
      NothingLaid(before);
      var seen: set<nat> := {};
      n := 0;
      while n < |routes|
        invariant n <= |routes| && Shaped(copy[..]) && GoodRoutes(before, routes[..n])
        invariant Patched(before, routes[..n], copy[..])
        invariant forall s :: s in seen <==> exists i :: 0 <= i < n && Touches(routes[i], s)
      {
        var entry := DecodeRoute(routes[n]);
        if entry.None? || entry.value.shard >= SHARD_COUNT {
          BadRoute(before, routes, n);
          return None, n;
        }
        var shard := entry.value.shard;
        DecodedShard(routes[n]);
        if shard in seen {
          BadPair(before, routes, n);
          return None, n;
        }
        Untouched(before, routes[..n], copy[..], shard);
        if entry.value.routeVersion <= copy[shard].routeVersion {
          BadRoute(before, routes, n);
          return None, n;
        }
        LayOne(before, routes, n, copy[..]);
        copy[shard] := entry.value;
        seen := seen + {shard};
        n := n + 1;
      }
      assert routes[..n] == routes;
      return Some(copy), n;
    }

    method ApplyAvailability(batch: Option<ZoneBatch>) returns (ok: bool)
      modifies this`availability
      ensures ok == !ZonesVerdict(old(availability), batch).Resync?
      ensures availability == AfterZones(old(availability), batch)
    {
      hide GoodZones, Incoming;
      if batch.None? || batch.value.version <= batch.value.previous { return false; }
      var b := batch.value;
      var incoming := CollectZones(b.zones);
      if incoming.None? { return false; }
      if b.previous == 0 {
        availability := Some(Zones(b.version, incoming.value));
        assert map[] + incoming.value == incoming.value;
        return true;
      }
      var version, zones := 0, map[];
      if availability.Some? { version, zones := availability.value.version, availability.value.zones; }
      if b.version <= version { return true; }
      if b.previous != version { return false; }
      availability := Some(Zones(b.version, zones + incoming.value));
      return true;
    }

    /** The batch as a map; nothing when an entry is bad or a zone comes twice. */
    method CollectZones(zones: seq<Option<ZoneEntry>>) returns (r: Option<map<string, Health>>)
      ensures r == if GoodZones(zones) then Some(Incoming(zones)) else None
    {
      var incoming: map<string, Health> := map[];
      var i := 0;
      while i < |zones|
        invariant i <= |zones| && incoming == Incoming(zones[..i])
        invariant forall k :: 0 <= k < i ==> GoodZone(zones[k])
        invariant forall j, k :: 0 <= j < k < i ==> zones[j].value.zone != zones[k].value.zone
        invariant forall z :: z in incoming <==> exists k :: 0 <= k < i && zones[k].value.zone == z
      {
        var entry := zones[i];
        if entry.None? || entry.value.zone == "" || entry.value.health.Unspecified? {
          assert !GoodZone(entry);
          return None;
        }
        if entry.value.zone in incoming { return None; }
        assert zones[..i + 1][..i] == zones[..i];
        incoming := incoming[entry.value.zone := entry.value.health];
        i := i + 1;
      }
      assert zones[..i] == zones;
      return Some(incoming);
    }

    /** resolveShard. */
    method ResolveShard(id: nat, now: int) returns (r: Resolved)
      requires Valid()
      ensures r.Route? <==>
        && id < SHARD_COUNT && snapshot.Some? && now < freshUntil && Value().value.entries[id].state.Active?
        && (availability.Some? && Value().value.entries[id].zone in availability.value.zones ==>
              availability.value.zones[Value().value.entries[id].zone].Healthy?)
      ensures r.Route? ==> r.entry == Value().value.entries[id].(leaseExpiresMs := freshUntil) && r.entry.shard == id
      ensures r.Stale? <==> id < SHARD_COUNT && snapshot.Some? && now >= freshUntil
    {
      if id >= SHARD_COUNT || snapshot.None? { return Unavailable; }
      if now >= freshUntil { return Stale; }
      var entry := snapshot.value.entries[id];
      assert entry == Value().value.entries[id];
      if !entry.state.Active? { return Unavailable; }
      if availability.Some? && entry.zone in availability.value.zones && !availability.value.zones[entry.zone].Healthy? {
        return Unavailable;
      }
      return Route(entry.(leaseExpiresMs := freshUntil));
    }

    /** getSnapshot: the caller gets a copy of its own. */
    method GetSnapshot() returns (s: Option<Snapshot>)
      requires Valid()
      ensures s.Some? <==> snapshot.Some?
      ensures s.Some? ==> fresh(s.value.entries)
      ensures s.Some? ==> Value() == Some(Table(s.value.version, s.value.term, s.value.index, s.value.entries[..]))
    {
      if snapshot.None? { return None; }
      var from := snapshot.value.entries;
      var copy := new RouteEntry[from.Length](k requires 0 <= k < from.Length reads from => from[k]);
      assert copy[..] == from[..];
      return Some(snapshot.value.(entries := copy));
    }
  }

  lemma SnapshotIsShaped(w: Option<WireSnapshot>, entries: seq<RouteEntry>)
    requires GoodSnapshot(w) && |entries| == SHARD_COUNT
    requires forall s :: 0 <= s < |entries| ==> DecodeRoute(w.value.entries[s]) == Some(entries[s])
    ensures Shaped(entries)
  {
    hide DecodeRoute;
  }

  lemma NothingLaid(before: seq<RouteEntry>)
    ensures GoodRoutes(before, []) && Patched(before, [], before)
  {
  }

  lemma DecodedShard(w: Option<WireRoute>)
    requires DecodeRoute(w).Some?
    ensures w.Some? && DecodeRoute(w).value.shard == w.value.shard
  {
  }

  lemma BadRoute(before: seq<RouteEntry>, routes: seq<Option<WireRoute>>, n: nat)
    requires n < |routes| && !GoodRoute(before, routes[n])
    ensures !GoodRoutes(before, routes)
  {
  }

  lemma BadPair(before: seq<RouteEntry>, routes: seq<Option<WireRoute>>, n: nat)
    requires n < |routes| && routes[n].Some? && exists i :: 0 <= i < n && Touches(routes[i], routes[n].value.shard)
    ensures !GoodRoutes(before, routes)
  {
    var i :| 0 <= i < n && Touches(routes[i], routes[n].value.shard);
    assert !Apart(routes, i, n);
  }

  lemma Untouched(before: seq<RouteEntry>, routes: seq<Option<WireRoute>>, now: seq<RouteEntry>, s: nat)
    requires Patched(before, routes, now) && s < |now|
    requires forall i :: 0 <= i < |routes| ==> !Touches(routes[i], s)
    ensures now[s] == before[s]
  {
  }

  lemma LayOne(before: seq<RouteEntry>, routes: seq<Option<WireRoute>>, n: nat, now: seq<RouteEntry>)
    requires n < |routes| && GoodRoutes(before, routes[..n]) && Patched(before, routes[..n], now) && Shaped(now)
    requires GoodRoute(before, routes[n]) && |before| == |now|
    requires forall i :: 0 <= i < n ==> !Touches(routes[i], routes[n].value.shard)
    ensures var s := routes[n].value.shard;
      var after := now[s := DecodeRoute(routes[n]).value];
      GoodRoutes(before, routes[..n + 1]) && Patched(before, routes[..n + 1], after) && Shaped(after)
  {
    DecodedShard(routes[n]);
    hide DecodeRoute, Patched, GoodRoutes;
    LayOneGood(before, routes, n);
    LayOnePatched(before, routes, n, now, routes[n].value.shard);
  }

  lemma LayOneGood(before: seq<RouteEntry>, routes: seq<Option<WireRoute>>, n: nat)
    requires n < |routes| && GoodRoutes(before, routes[..n]) && GoodRoute(before, routes[n]) && routes[n].Some?
    requires forall i :: 0 <= i < n ==> !Touches(routes[i], routes[n].value.shard)
    ensures GoodRoutes(before, routes[..n + 1])
  {
    hide DecodeRoute, GoodRoute;
    var more := routes[..n + 1];
    forall i | 0 <= i < |more| ensures GoodRoute(before, more[i]) {
      if i < n { assert more[i] == routes[..n][i]; }
    }
    forall i, j | 0 <= i < j < |more| ensures Apart(more, i, j) {
      if j < n { assert Apart(routes[..n], i, j); } else { assert !Touches(routes[i], routes[n].value.shard); }
    }
  }

  lemma LayOnePatched(before: seq<RouteEntry>, routes: seq<Option<WireRoute>>, n: nat, now: seq<RouteEntry>, s: nat)
    requires n < |routes| && Patched(before, routes[..n], now) && s < |now|
    requires routes[n].Some? && routes[n].value.shard == s && DecodeRoute(routes[n]).Some?
    requires forall i :: 0 <= i < n ==> !Touches(routes[i], s)
    ensures Patched(before, routes[..n + 1], now[s := DecodeRoute(routes[n]).value])
  {
    hide DecodeRoute;
    var more := routes[..n + 1];
    var after := now[s := DecodeRoute(routes[n]).value];
    forall i | 0 <= i < |more| && more[i].Some? && more[i].value.shard < |after|
      ensures Some(after[more[i].value.shard]) == DecodeRoute(more[i])
    {
      if i < n { assert !Touches(routes[i], s); assert more[i] == routes[..n][i]; }
    }
    forall k | 0 <= k < |after| && (forall i :: 0 <= i < |more| ==> !Touches(more[i], k)) ensures after[k] == before[k] {
      assert !Touches(more[n], k);
      forall i | 0 <= i < n ensures !Touches(routes[..n][i], k) { assert more[i] == routes[..n][i]; }
    }
  }

  // ------------------------------------------------------------- the theorems

  /** What the coordinator published: one table of entries for each map version, and
      one zone list for each availability version. */
  datatype Published = Published(tables: map<nat, seq<RouteEntry>>, zones: map<nat, map<string, Health>>)

  predicate GoodPublished(p: Published) {
    forall v :: v in p.tables ==> v != 0 && Shaped(p.tables[v])
  }

  /** The batch is the true difference of two published tables. */
  ghost predicate TrueBatch(p: Published, b: RouteBatch) {
    && b.previous in p.tables && b.version in p.tables
    && Patched(p.tables[b.previous], b.routes, p.tables[b.version])
  }

  ghost predicate TrueMessage(p: Published, m: Message) {
    match m
    case Full(w) =>
      GoodSnapshot(w) ==> (
        && w.value.mapVersion in p.tables && |p.tables[w.value.mapVersion]| == SHARD_COUNT
        && forall s :: 0 <= s < SHARD_COUNT ==> DecodeRoute(w.value.entries[s]) == Some(p.tables[w.value.mapVersion][s]))
    case Delta(b) => b.Some? ==> TrueBatch(p, b.value)
  }

  predicate Mirrors(p: Published, t: Option<Table>) {
    t.Some? ==> t.value.version in p.tables && t.value.entries == p.tables[t.value.version]
  }

  /** Laying routes over a table has one possible outcome. */
  lemma PatchedOnce(before: seq<RouteEntry>, routes: seq<Option<WireRoute>>, x: seq<RouteEntry>, y: seq<RouteEntry>)
    requires Patched(before, routes, x) && Patched(before, routes, y)
    ensures x == y
  {
    hide DecodeRoute;
    forall s | 0 <= s < |x| ensures x[s] == y[s] {
      if i :| 0 <= i < |routes| && Touches(routes[i], s) {
        assert Some(x[s]) == DecodeRoute(routes[i]) == Some(y[s]);
      }
    }
  }

  lemma StepMirrors(p: Published, t: Option<Table>, m: Message, u: Option<Table>)
    requires GoodPublished(p) && Mirrors(p, t) && TrueMessage(p, m) && Steps(t, m, u)
    ensures Mirrors(p, u)
  {
    hide DecodeRoute, Patched, GoodRoutes;
    match m
    case Full(w) =>
      if GoodSnapshot(w) { assert u.value.entries == p.tables[w.value.mapVersion]; }
    case Delta(b) =>
      if BatchVerdict(t, b).Applied? {
        PatchedOnce(t.value.entries, b.value.routes, u.value.entries, p.tables[b.value.version]);
      }
  }

  /** The tables a cache goes through as messages arrive, one after each. */
  ghost predicate History(ts: seq<Option<Table>>, ms: seq<Message>) {
    && |ts| == |ms| + 1 && ts[0].None?
    && forall i :: 0 <= i < |ms| ==> Steps(ts[i], ms[i], ts[i + 1])
  }

  /** Whatever true messages arrive, lost, repeated, stale or after a gap, the cache is
      at every moment the table published under its own version. */
  lemma {:induction false} AlwaysAPublishedTable(p: Published, ts: seq<Option<Table>>, ms: seq<Message>, n: nat)
    requires GoodPublished(p) && History(ts, ms) && n < |ts|
    requires forall i :: 0 <= i < |ms| ==> TrueMessage(p, ms[i])
    ensures Mirrors(p, ts[n])
  {
    hide Steps, TrueMessage, Mirrors;
    if n > 0 {
      AlwaysAPublishedTable(p, ts, ms, n - 1);
      StepMirrors(p, ts[n - 1], ms[n - 1], ts[n]);
    } else {
      MirrorsNone(p);
    }
  }

  lemma MirrorsNone(p: Published)
    ensures Mirrors(p, None)
  {
  }

  /** Between snapshots the version never goes back, and the committed term and index
      stay those of the last snapshot. */
  lemma DeltasGoForward(t: Option<Table>, b: Option<RouteBatch>, u: Option<Table>)
    requires Steps(t, Delta(b), u)
    ensures t.Some? ==> u.Some? && u.value.version >= t.value.version
    ensures u != t ==> t.Some? && t.value.version == b.value.previous && u.value.version == b.value.version
    ensures t.Some? ==> u.value.term == t.value.term && u.value.index == t.value.index
  {
    hide DecodeRoute, GoodRoutes, Patched;
  }

  /** A publisher's batch: a true difference whose routes all decode to shards of the
      table and raise their versions, at least one and none twice. */
  ghost predicate PublisherBatch(p: Published, b: RouteBatch) {
    TrueBatch(p, b) && b.previous < b.version && b.routes != [] && GoodRoutes(p.tables[b.previous], b.routes)
  }

  /** Such a batch is applied exactly when it continues the cache's own version, and is
      otherwise either already known or answered with a resync. */
  lemma AppliedIffContiguous(p: Published, t: Option<Table>, b: RouteBatch)
    requires GoodPublished(p) && Mirrors(p, t) && PublisherBatch(p, b)
    ensures BatchVerdict(t, Some(b)).Applied? <==> t.Some? && t.value.version == b.previous
    ensures BatchVerdict(t, Some(b)).Ignored? <==> t.Some? && b.version <= t.value.version
  {
    hide DecodeRoute, GoodRoutes, Patched;
  }

  /** An unbroken chain of publisher batches carries the cache to the last table. */
  lemma {:induction false} CatchesUp(p: Published, ts: seq<Option<Table>>, bs: seq<RouteBatch>)
    requires GoodPublished(p) && |ts| == |bs| + 1 && ts[0].Some? && Mirrors(p, ts[0])
    requires forall i :: 0 <= i < |bs| ==> PublisherBatch(p, bs[i]) && Steps(ts[i], Delta(Some(bs[i])), ts[i + 1])
    requires bs != [] ==> bs[0].previous == ts[0].value.version
    requires forall i :: 0 <= i < |bs| - 1 ==> bs[i + 1].previous == bs[i].version
    ensures Mirrors(p, ts[|bs|])
    ensures bs != [] ==> ts[|bs|].Some? && ts[|bs|].value.version == bs[|bs| - 1].version
    decreases |bs|
  {
    hide DecodeRoute, GoodRoutes, Patched, GoodPublished;
    if bs != [] {
      assert PublisherBatch(p, bs[0]) && Steps(ts[0], Delta(Some(bs[0])), ts[1]);
      AppliedIffContiguous(p, ts[0], bs[0]);
      StepMirrors(p, ts[0], Delta(Some(bs[0])), ts[1]);
      CatchesUp(p, ts[1..], bs[1..]);
    }
  }

  // ------------------------------------------------------------- availability

  predicate TrueZones(p: Published, b: Option<ZoneBatch>) {
    b.Some? && GoodZones(b.value.zones) ==>
      b.value.version in p.zones
      && (b.value.previous == 0 ==> p.zones[b.value.version] == Incoming(b.value.zones))
      && (b.value.previous == 0 || (
            && b.value.previous in p.zones
            && p.zones[b.value.version] == p.zones[b.value.previous] + Incoming(b.value.zones)))
  }

  function AfterAll(current: Option<Zones>, bs: seq<Option<ZoneBatch>>): Option<Zones>
    decreases |bs|
  {
    if bs == [] then current else AfterAll(AfterZones(current, bs[0]), bs[1..])
  }

  predicate MirrorsZones(p: Published, z: Option<Zones>) {
    z.Some? ==> z.value.version != 0 && z.value.version in p.zones && z.value.zones == p.zones[z.value.version]
  }

  /** The same for the zone list, whose full form may also move it back. */
  lemma {:induction false} AlwaysAPublishedZoneList(p: Published, z: Option<Zones>, bs: seq<Option<ZoneBatch>>)
    requires MirrorsZones(p, z) && forall i :: 0 <= i < |bs| ==> TrueZones(p, bs[i])
    ensures MirrorsZones(p, AfterAll(z, bs))
    decreases |bs|
  {
    hide GoodZones, Incoming;
    if bs != [] {
      var b := bs[0];
      assert TrueZones(p, b);
      if b.Some? { assert map[] + Incoming(b.value.zones) == Incoming(b.value.zones); }
      AlwaysAPublishedZoneList(p, AfterZones(z, b), bs[1..]);
    }
  }

  lemma {:induction false} IncomingAt(zones: seq<Option<ZoneEntry>>, i: nat)
    requires i < |zones| && GoodZones(zones)
    ensures zones[i].value.zone in Incoming(zones) && Incoming(zones)[zones[i].value.zone] == zones[i].value.health
  {
    var n := |zones| - 1;
    assert GoodZones(zones[..n]);
    if i < n { IncomingAt(zones[..n], i); }
  }

  lemma {:induction false} IncomingFrom(zones: seq<Option<ZoneEntry>>, z: string)
    requires GoodZones(zones) && z in Incoming(zones)
    ensures exists i :: 0 <= i < |zones| && zones[i].value.zone == z
  {
    var n := |zones| - 1;
    assert GoodZones(zones[..n]);
    if zones[n].value.zone != z { IncomingFrom(zones[..n], z); }
  }

  /** What one zone batch does: a list replaces, a difference is laid over the list whose
      version it names, and anything else leaves the list alone. */
  lemma ZonesMean(z: Option<Zones>, b: Option<ZoneBatch>)
    ensures
      var version := if z.None? then 0 else z.value.version;
      if && b.Some? && b.value.previous < b.value.version
         && (b.value.previous == 0 || (b.value.previous == version))
         && (forall i :: 0 <= i < |b.value.zones| ==>
               b.value.zones[i].Some? && b.value.zones[i].value.zone != "" && b.value.zones[i].value.health != Unspecified)
         && (forall i, j :: 0 <= i < j < |b.value.zones| && b.value.zones[i].Some? && b.value.zones[j].Some? ==>
               b.value.zones[i].value.zone != b.value.zones[j].value.zone)
      then
        && AfterZones(z, b).Some? && AfterZones(z, b).value.version == b.value.version
        && (forall i :: 0 <= i < |b.value.zones| ==>
              && b.value.zones[i].value.zone in AfterZones(z, b).value.zones
              && AfterZones(z, b).value.zones[b.value.zones[i].value.zone] == b.value.zones[i].value.health)
        && (forall n: string :: (forall i :: 0 <= i < |b.value.zones| ==> b.value.zones[i].value.zone != n) ==>
              if z.Some? && b.value.previous != 0 && n in z.value.zones
              then n in AfterZones(z, b).value.zones && AfterZones(z, b).value.zones[n] == z.value.zones[n]
              else n !in AfterZones(z, b).value.zones)
      else
        && AfterZones(z, b) == z
        && (ZonesVerdict(z, b).Ignored? <==>
              b.Some? && GoodZones(b.value.zones) && 0 < b.value.previous < b.value.version <= version)
  {
    if b.Some? {
      var zones := b.value.zones;
      ZonesGoodIff(zones);
      hide GoodZones;
      if GoodZones(zones) && ZonesVerdict(z, b).Applied? {
        var t := AfterZones(z, b);
        forall i | 0 <= i < |zones|
          ensures zones[i].value.zone in t.value.zones && t.value.zones[zones[i].value.zone] == zones[i].value.health
        {
          IncomingAt(zones, i);
        }
        forall n: string | forall i :: 0 <= i < |zones| ==> zones[i].value.zone != n
          ensures n !in Incoming(zones)
        {
          if n in Incoming(zones) { IncomingFrom(zones, n); }
        }
      }
    }
  }

  lemma ZonesGoodIff(zones: seq<Option<ZoneEntry>>)
    ensures GoodZones(zones) <==>
      && (forall i :: 0 <= i < |zones| ==>
            zones[i].Some? && zones[i].value.zone != "" && zones[i].value.health != Unspecified)
      && (forall i, j :: 0 <= i < j < |zones| && zones[i].Some? && zones[j].Some? ==>
            zones[i].value.zone != zones[j].value.zone)
  {
    if GoodZones(zones) {
      forall i | 0 <= i < |zones| ensures GoodZone(zones[i]) {}
    }
  }
}
