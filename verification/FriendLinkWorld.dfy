/** Any number of link-saga drivers over the shared tables. A driver may stop for
    good at any point (it is simply never scheduled again), several may work on one
    saga, and several codes may link the same two players. One event is one store or
    collaborator call of one driver, with a fault of the environment's choice. */
module FriendLinkWorld {
  import opened Common
  import opened FriendLists
  import opened FriendLinkDriver

  type Pair = (PlayerId, PlayerId)

  /** The first-friend row of an invitee. */
  datatype Reward = Reward(inviter: PlayerId, relation: RelationId, code: string)

  datatype Mail = Mail(source: SourceId, recipient: PlayerId)

  /** The durable tables. `owners` is the fixed owner of every share code, `names` the
      name of every account that is active, `minted`
      remembers which saga draft each random relation ID was drawn for, and
      `credits` and `mails` are the requests the collaborators have accepted. */
  datatype Store = Store(
    owners: map<string, PlayerId>,
    names: map<PlayerId, string>,
    sagas: map<Link, Row<Saga>>,
    lists: map<PlayerId, Row<FriendList>>,
    relations: map<Pair, RelationId>,
    rewards: map<PlayerId, Reward>,
    minted: map<RelationId, Link>,
    credits: set<(PlayerId, RelationId)>,
    mails: set<Mail>)

  /** The environment's free choices: the random ID and whether a collaborator accepts. */
  datatype Pick = Pick(relation: RelationId, accepts: bool)

  function Apply(s: Store, c: Call, pick: Pick): (Store, Reply) {
    match c
    case NoCall => (s, Failed)
    case GetRelation(l, h) => (s, if (l, h) in s.relations then RelationIs(s.relations[(l, h)]) else NotFound)
    case InsertRelation(l, h, relation) =>
      if (l, h) in s.relations then (s, AlreadyExists)
      else (s.(relations := s.relations[(l, h) := relation]), Done(1))
    case GetSaga(link) =>
      (s, if link in s.sagas then SagaIs(s.sagas[link].value, s.sagas[link].version) else NotFound)
    case MintRelation(link) =>
      if pick.relation in s.minted then (s, Failed)
      else (s.(minted := s.minted[pick.relation := link]), Minted(pick.relation))
    case InsertSaga(g) =>
      if g.link in s.sagas then (s, AlreadyExists)
      else (s.(sagas := s.sagas[g.link := Row(g, 1)]), Done(1))
    case UpdateSaga(g, v) =>
      if g.link in s.sagas && s.sagas[g.link].version == v
      then (s.(sagas := s.sagas[g.link := Row(g, v + 1)]), Done(v + 1))
      else (s, Failed)
    case GetList(p) =>
      (s, if p in s.lists then ListIs(s.lists[p].value, s.lists[p].version) else NotFound)
    case InsertList(p) =>
      if p in s.lists then (s, AlreadyExists)
      else (s.(lists := s.lists[p := Row(EMPTY_LIST, 1)]), Done(1))
    case UpdateList(p, l, v) =>
      if p in s.lists && s.lists[p].version == v
      then (s.(lists := s.lists[p := Row(l, v + 1)]), Done(v + 1))
      else (s, Failed)
    case AccountName(p) => (s, if p in s.names then NameIs(s.names[p]) else NotFound)
    case CreditTask(p, relation) =>
      if pick.accepts then (s.(credits := s.credits + {(p, relation)}), Done(0)) else (s, Failed)
    case ClaimReward(invitee, inviter, relation, code) =>
      if invitee in s.rewards then (s, ClaimIs(false))
      else (s.(rewards := s.rewards[invitee := Reward(inviter, relation, code)]), ClaimIs(true))
    case SendMail(source, recipient) =>
      if pick.accepts then (s.(mails := s.mails + {Mail(source, recipient)}), Done(0)) else (s, Failed)
  }

  function Perform(s: Store, c: Call, fault: Fault, pick: Pick): (Store, Reply) {
    match fault
    case Refuse => (s, Failed)
    case Fine => Apply(s, c, pick)
    case Lose => (Apply(s, c, pick).0, Failed)
  }

  datatype World = World(store: Store, drivers: map<nat, Driver>)

  datatype Event =
    | Redeem(id: nat, redeemer: PlayerId, code: string, mailer: bool)
    | Reconciling(id: nat, link: Link, mailer: bool)
    | Activate(player: PlayerId, name: string)
    | Act(id: nat, fault: Fault, pick: Pick)

  function Step(w: World, e: Event): World {
    match e
    case Redeem(id, redeemer, code, mailer) =>
      if id in w.drivers || code !in w.store.owners then w
      else w.(drivers := w.drivers[id := Start(Job(w.store.owners[code], redeemer, code, mailer))])
    case Reconciling(id, link, mailer) =>
      if id in w.drivers || link.code !in w.store.owners then w
      else w.(drivers := w.drivers[id :=
          Driver(Job(w.store.owners[link.code], link.redeemer, link.code, mailer), EntryReconcile)])
    case Activate(player, name) =>
      if player in w.store.names then w else w.(store := w.store.(names := w.store.names[player := name]))
    case Act(id, fault, pick) =>
      if id !in w.drivers then w
      else
        var d := w.drivers[id];
        var (store, reply) := Perform(w.store, CallOf(d), fault, pick);
        World(store, w.drivers[id := Feed(d, reply)])
  }

  function RunAll(w: World, es: seq<Event>): World {
    if es == [] then w else Step(RunAll(w, es[..|es| - 1]), es[|es| - 1])
  }

  function Empty(owners: map<string, PlayerId>): World {
    World(Store(owners, map[], map[], map[], map[], map[], map[], {}, {}), map[])
  }

  // ------------------------------------------------------------- vocabulary

  predicate Forward(st: Status) { st != Unspecified && st != Releasing && st != Aborted }

  /** On the forward path, at or past `target`. */
  predicate Reached(st: Status, target: Status) { Forward(st) && Rank(target) <= Rank(st) }

  /** A durable status may later become that one. */
  predicate Path(a: Status, b: Status) {
    || a == b
    || (Forward(a) && Forward(b) && Rank(a) <= Rank(b))
    || ((b == Releasing || b == Aborted) && (a == Init || a == LowReserved))
    || (a == Releasing && b == Aborted)
  }

  predicate Known(s: Store, link: Link) {
    link.code in s.owners && s.owners[link.code] != link.redeemer
  }

  function PairOf(s: Store, link: Link): Pair
    requires Known(s, link)
  {
    (LowOf(s.owners[link.code], link.redeemer), HighOf(s.owners[link.code], link.redeemer))
  }

  predicate Related(s: Store, low: PlayerId, high: PlayerId, relation: RelationId) {
    (low, high) in s.relations && s.relations[(low, high)] == relation
  }

  /** `p` lists `friend` under `relation`. */
  predicate Listed(s: Store, p: PlayerId, friend: PlayerId, relation: RelationId) {
    p in s.lists && HasEntry(s.lists[p].value, friend, relation)
  }

  /** `p` has room for `friend` on behalf of `link`: an entry or a held slot. */
  predicate Held(s: Store, p: PlayerId, friend: PlayerId, link: Link) {
    p in s.lists && (HasFriend(s.lists[p].value, friend) || Reserves(s.lists[p].value.reservations, link))
  }

  predicate HeldSide(s: Store, link: Link, low: bool)
    requires Known(s, link)
  {
    var (l, h) := PairOf(s, link);
    if low then Held(s, l, h, link) else Held(s, h, l, link)
  }

  // -------------------------------------------------------------- invariant

  predicate Shape(s: Store, g: Saga) {
    && Known(s, g.link)
    && g.owner == s.owners[g.link.code]
    && (g.low, g.high) == PairOf(s, g.link)
    && g.relation in s.minted
    && Known(s, s.minted[g.relation])
    && PairOf(s, s.minted[g.relation]) == (g.low, g.high)
    && (!Reached(g.status, RelationActive) ==> s.minted[g.relation] == g.link)
    && g.status != Unspecified
  }

  predicate CreditFacts(s: Store, g: Saga) {
    && (g.lowCredited || g.highCredited ==> Reached(g.status, TaskCrediting))
    && (g.lowCredited ==> (g.low, g.relation) in s.credits)
    && (g.highCredited ==> (g.high, g.relation) in s.credits)
    && (Reached(g.status, FirstRewardChecked) ==> g.lowCredited && g.highCredited)
  }

  /** This saga's code holds the invitee's first-friend row. */
  predicate Winner(s: Store, g: Saga) {
    g.link.redeemer in s.rewards && s.rewards[g.link.redeemer].code == g.link.code
  }

  predicate MailSent(s: Store, g: Saga, side: MailSide) {
    Mail(SourceId(g.link.redeemer, side), Recipient(g, side)) in s.mails
  }

  predicate RewardFacts(s: Store, g: Saga) {
    && (g.claimed ==> Winner(s, g) && (g.status == RewardMailsCreated || g.status == Completed))
    && (g.status == RewardMailsCreated ==>
          g.claimed && g.inviterMail != MailSkipped && g.inviteeMail != MailSkipped)
    && (g.status != RewardMailsCreated && g.status != Completed ==>
          g.inviterMail == MailUnset && g.inviteeMail == MailUnset)
    && (g.status == Completed && !g.claimed ==>
          g.inviterMail == g.inviteeMail && (g.inviterMail == MailUnset || g.inviterMail == MailSkipped))
    && (g.inviterMail == MailApplied ==> MailSent(s, g, ToInviter))
    && (g.inviteeMail == MailApplied ==> MailSent(s, g, ToInvitee))
    && (g.status == Completed && g.claimed ==> g.inviterMail == MailApplied && g.inviteeMail == MailApplied)
  }

  /** A recorded error names the step that is still open. */
  predicate ErrorFacts(g: Saga) {
    && (g.lastError == TaskCreditFailed ==> g.status == TaskCrediting && !(g.lowCredited && g.highCredited))
    && (g.lastError == FirstRewardCheckFailed ==> g.status == FirstRewardChecked && !g.claimed)
    && (g.lastError == RewardMailFailed ==>
          g.status == RewardMailsCreated && !(g.inviterMail == MailApplied && g.inviteeMail == MailApplied))
  }

  /** What a saga at this status implies and no later step can undo. */
  predicate Stable(s: Store, g: Saga) {
    && Shape(s, g)
    && (Reached(g.status, RelationActive) ==> Related(s, g.low, g.high, g.relation))
    && (Reached(g.status, ProjectionsApplied) ==>
          Listed(s, g.low, g.high, g.relation) && Listed(s, g.high, g.low, g.relation))
    && CreditFacts(s, g)
    && RewardFacts(s, g)
    && ErrorFacts(g)
  }

  /** The slots a saga at this status still counts on. */
  predicate Slots(s: Store, g: Saga) {
    && (Reached(g.status, LowReserved) ==> Held(s, g.low, g.high, g.link))
    && (Reached(g.status, BothReserved) ==> Held(s, g.high, g.low, g.link))
  }

  predicate SagaOK(s: Store, link: Link)
    requires link in s.sagas
  {
    s.sagas[link].value.link == link && Stable(s, s.sagas[link].value) && Slots(s, s.sagas[link].value)
  }

  /** An entry is backed by the relation of the two players, under its ID. */
  predicate Backed(s: Store, p: PlayerId, e: Entry) {
    e.friend != p && Related(s, LowOf(p, e.friend), HighOf(p, e.friend), e.relation)
  }

  predicate ReservedFor(s: Store, p: PlayerId, r: Reservation) {
    r.link in s.sagas && Known(s, r.link)
    && (PairOf(s, r.link).0 == p || PairOf(s, r.link).1 == p)
  }

  predicate ListOK(s: Store, p: PlayerId)
    requires p in s.lists
  {
    var l := s.lists[p].value;
    && WellCounted(l)
    && (forall i :: 0 <= i < |l.entries| ==> Backed(s, p, l.entries[i]))
    && (forall r :: r in l.reservations ==> ReservedFor(s, p, r))
  }

  predicate RelationOK(s: Store, pair: Pair)
    requires pair in s.relations
  {
    && s.relations[pair] in s.minted
    && var origin := s.minted[s.relations[pair]];
    && Known(s, origin) && PairOf(s, origin) == pair
    && origin in s.sagas && Reached(s.sagas[origin].value.status, BothReserved)
  }

  predicate CreditOK(s: Store, c: (PlayerId, RelationId)) {
    && c.1 in s.minted && Known(s, s.minted[c.1])
    && var pair := PairOf(s, s.minted[c.1]);
    Related(s, pair.0, pair.1, c.1) && (c.0 == pair.0 || c.0 == pair.1)
  }

  predicate RewardOK(s: Store, invitee: PlayerId)
    requires invitee in s.rewards
  {
    var r := s.rewards[invitee];
    && Known(s, Link(r.code, invitee))
    && r.inviter == s.owners[r.code]
    && var pair := PairOf(s, Link(r.code, invitee));
    Related(s, pair.0, pair.1, r.relation)
  }

  /** The saga of the code that holds the invitee's row carries the claim. */
  predicate ClaimedBy(s: Store, invitee: PlayerId)
    requires invitee in s.rewards
  {
    var link := Link(s.rewards[invitee].code, invitee);
    link in s.sagas && s.sagas[link].value.claimed
  }

  predicate MailOK(s: Store, m: Mail) {
    && m.source.invitee in s.rewards && ClaimedBy(s, m.source.invitee)
    && m.recipient == if m.source.side == ToInviter then s.rewards[m.source.invitee].inviter else m.source.invitee
  }

  predicate StoreOK(s: Store) {
    && (forall link :: link in s.sagas ==> SagaOK(s, link))
    && (forall p :: p in s.lists ==> ListOK(s, p))
    && (forall pair :: pair in s.relations ==> RelationOK(s, pair))
    && (forall c :: c in s.credits ==> CreditOK(s, c))
    && (forall i :: i in s.rewards ==> RewardOK(s, i))
    && (forall m :: m in s.mails ==> MailOK(s, m))
    && (forall r :: r in s.minted ==> Known(s, s.minted[r]))
  }

  // ----------------------------------------------------- what steps may change

  predicate LaterSaga(a: Row<Saga>, b: Row<Saga>) {
    && a.version <= b.version
    && (a.version == b.version ==> a.value == b.value)
    && Path(a.value.status, b.value.status)
    && (a.value.relation == b.value.relation
        || (!Reached(a.value.status, RelationActive) && Reached(b.value.status, RelationActive)))
    && (a.value.claimed ==> b.value.claimed)
  }

  predicate LaterList(a: Row<FriendList>, b: Row<FriendList>) {
    && a.version <= b.version
    && (a.version == b.version ==> a.value == b.value)
    && a.value.entries <= b.value.entries
  }

  predicate SlotsKept(s: Store, t: Store)
    requires s.owners == t.owners
  {
    forall link, low :: link in s.sagas && link in t.sagas && Known(s, link) && HeldSide(s, link, low)
      && t.sagas[link].value.status != Releasing && t.sagas[link].value.status != Aborted
      ==> HeldSide(t, link, low)
  }

  /** The guarantee of every step, and so what every other driver may rely on: rows
      only move along their paths, nothing recorded is forgotten, and a saga that has
      not begun to release keeps its slots. */
  predicate Later(s: Store, t: Store) {
    && s.owners == t.owners
    && (forall link :: link in s.sagas ==> link in t.sagas && LaterSaga(s.sagas[link], t.sagas[link]))
    && (forall p :: p in s.lists ==> p in t.lists && LaterList(s.lists[p], t.lists[p]))
    && (forall pair :: pair in s.relations ==> pair in t.relations && s.relations[pair] == t.relations[pair])
    && (forall i :: i in s.rewards ==> i in t.rewards && s.rewards[i] == t.rewards[i])
    && (forall r :: r in s.minted ==> r in t.minted && s.minted[r] == t.minted[r])
    && s.credits <= t.credits && s.mails <= t.mails
    && SlotsKept(s, t)
  }

  // --------------------------------------------------------- driver invariant

  predicate JobOK(s: Store, j: Job) {
    j.code in s.owners && j.owner == s.owners[j.code]
  }

  /** The private copy is the row at that version, or an earlier one of it. */
  predicate Lineage(s: Store, g: Saga, v: nat) {
    g.link in s.sagas && LaterSaga(Row(g, v), s.sagas[g.link])
  }

  /** A private copy of a list is the row at that version, or an earlier one of it. */
  predicate ListLineage(s: Store, p: PlayerId, l: FriendList, v: nat) {
    p in s.lists && LaterList(Row(l, v), s.lists[p])
  }

  predicate AtOK(s: Store, g: Saga, v: nat, at: At)
    requires g.link in s.sagas
  {
    match at
    case Listing(e, name, _, phase) =>
      && EditStatus(e) == g.status
      && (e == ConsumeHigh ==> Listed(s, g.low, g.high, g.relation))
      && (phase.Replace? ==>
            && ListLineage(s, Subject(g, e), phase.list, phase.listVersion)
            && PlanFor(g, e, name, phase.list).Write?)
    case NameRead(e) =>
      && (e == ConsumeLow || e == ConsumeHigh)
      && g.status == RelationActive
      && (e == ConsumeHigh ==> Listed(s, g.low, g.high, g.relation))
    case RelationCreate => g.status == BothReserved
    case RelationRead => g.status == BothReserved
    case Crediting(low) => g.status == TaskCrediting && (if low then !g.lowCredited else g.lowCredited && !g.highCredited)
    case Claiming => g.status == FirstRewardChecked && !g.claimed
    case Mailing(side) =>
      g.status == RewardMailsCreated
      && (if side == ToInviter then g.inviterMail != MailApplied else g.inviterMail == MailApplied && g.inviteeMail != MailApplied)
    case SagaWrite(next, after) =>
      && next.link == g.link
      && Stable(s, next)
      && LaterSaga(Row(g, v), Row(next, v + 1))
      && (s.sagas[g.link].version == v ==> Slots(s, next))
      && (after.NextCredit? ==> next.status == TaskCrediting && (if after.low then next.lowCredited else
                                next.highCredited && next.lowCredited))
      && (after.NextMail? ==> next.status == RewardMailsCreated && (if after.side == ToInviter
                              then next.inviterMail == MailApplied
                              else next.inviteeMail == MailApplied && next.inviterMail == MailApplied))
      && (after == StopHere || after == StopOrFail ==> Reached(next.status, TaskCrediting))
    }

  /** EstablishFriendship's answer is the active relation, except that a saga which
      was aborted answers with its own never-used relation ID. */
  predicate AnswerOK(s: Store, j: Job, o: Outcome) {
    o.Linked? ==>
      && Known(s, JobLink(j))
      && var (l, h) := PairOf(s, JobLink(j));
      && (o.newly ==> Listed(s, l, h, o.relation) && Listed(s, h, l, o.relation))
      && (Related(s, l, h, o.relation)
          || (!o.newly && JobLink(j) in s.sagas && s.sagas[JobLink(j)].value.status == Aborted
              && s.sagas[JobLink(j)].value.relation == o.relation))
  }

  predicate DriverOK(s: Store, d: Driver) {
    && JobOK(s, d.job)
    && match d.run
       case Advancing(at, g, v, _, p) =>
         && Known(s, JobLink(d.job)) && g.link == JobLink(d.job)
         && Lineage(s, g, v) && Stable(s, g) && AtOK(s, g, v, at)
       case Finished(o) => AnswerOK(s, d.job, o)
       case EntryReconcile => true
       case EntryActiveSaga(relation) =>
         Known(s, JobLink(d.job))
         && Related(s, PairOf(s, JobLink(d.job)).0, PairOf(s, JobLink(d.job)).1, relation)
       case EntryInsert(g) =>
         Known(s, JobLink(d.job)) && g == NewSaga(d.job, g.relation)
         && g.relation in s.minted && s.minted[g.relation] == JobLink(d.job)
       case _ => Known(s, JobLink(d.job))
  }

  predicate Inv(w: World) {
    StoreOK(w.store) && forall id :: id in w.drivers ==> DriverOK(w.store, w.drivers[id])
  }
}
