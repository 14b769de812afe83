/** Claims on one mail of one player: its read and claimed bits, the durable claim
    sagas, the zone that pays the reward, and any number of drivers that mark the mail
    read, claim it or resume a claim. A driver may stop anywhere; a call may be refused,
    or applied with its reply lost. */
module MailClaim {
  import opened Common

  const MAX_ATTEMPTS: nat := 8

  datatype Bits = Bits(read: bool, claimed: bool)

  datatype Status = Init | Claiming | PlayerApplied | Completed | Cancelling | Available | Other

  datatype Call =
    | NoCall | GetRegistered | GetMail
    | GetState | InsertState(bits: Bits) | UpdateState(bits: Bits, version: nat)
    | GetSaga(claim: nat) | ListSagas(claim: nat) | InsertSaga(claim: nat) | UpdateSaga(claim: nat, status: Status, version: nat)
    | Apply(claim: nat)

  datatype Reply =
    | Failed | NotFound | AlreadyExists | Conflict | Done
    | State(bits: Bits, version: nat) | Saga(status: Status, version: nat) | Blocked | Free
    | Paid | Full | Declined

  datatype Outcome = Claimed | NotReady | Advanced | Read | ErrInventoryFull | ErrConflict | ErrNotFound | ErrOther

  /** Where a driver stands; `depth` counts the cancelClaim calls around this Advance,
      `k` its attempts, `j` those of the mark loop inside. */
  datatype Run =
    | BeginRegistered | BeginMail | BeginGet | BeginList | BeginState | BeginInsert | BeginReget
    | Loading(depth: nat, k: nat)
    | Applying(depth: nat, k: nat, saga: Row<Status>)
    | Recording(depth: nat, k: nat, saga: Row<Status>)
    | MarkGet(depth: nat, k: nat, saga: Row<Status>, j: nat)
    | MarkInsert(depth: nat, k: nat, saga: Row<Status>, j: nat)
    | MarkUpdate(depth: nat, k: nat, saga: Row<Status>, j: nat, bits: Row<Bits>)
    | Completing(depth: nat, k: nat, saga: Row<Status>)
    | Withdrawing(depth: nat, saga: Row<Status>)
    | Finishing(depth: nat, k: nat, saga: Row<Status>)
    | FinalGet
    | ReadGet(j: nat) | ReadInsert(j: nat) | ReadUpdate(j: nat, bits: Row<Bits>)
    | Over(outcome: Outcome)

  /** `whole` tells ClaimMail from a bare Advance. */
  datatype Driver = Driver(claim: nat, whole: bool, run: Run)

  function CallOf(d: Driver): Call {
    var c := d.claim;
    match d.run
    case BeginRegistered => GetRegistered
    case BeginMail => GetMail
    case BeginGet => GetSaga(c)
    case BeginList => ListSagas(c)
    case BeginState => GetState
    case BeginInsert => InsertSaga(c)
    case BeginReget => GetSaga(c)
    case Loading(_, _) => GetSaga(c)
    case Applying(_, _, _) => Apply(c)
    case Recording(_, _, saga) => UpdateSaga(c, PlayerApplied, saga.version)
    case MarkGet(_, _, _, _) => GetState
    case MarkInsert(_, _, _, _) => InsertState(Bits(true, true))
    case MarkUpdate(_, _, _, _, bits) => UpdateState(Bits(true, true), bits.version)
    case Completing(_, _, saga) => UpdateSaga(c, Completed, saga.version)
    case Withdrawing(_, saga) => UpdateSaga(c, Cancelling, saga.version)
    case Finishing(_, _, saga) => UpdateSaga(c, Available, saga.version)
    case FinalGet => GetSaga(c)
    case ReadGet(_) => GetState
    case ReadInsert(_) => InsertState(Bits(true, false))
    case ReadUpdate(_, bits) => UpdateState(bits.value.(read := true), bits.version)
    case Over(_) => NoCall
  }

  /** What Advance hands back, through `depth` cancelClaim frames, to its caller. */
  function Return(d: Driver, depth: nat, failure: Option<Outcome>): Run {
    if failure.Some? then Over(failure.value)
    else if depth > 0 then Over(ErrInventoryFull)
    else if d.whole then FinalGet
    else Over(Advanced)
  }

  /** The top of an Advance attempt. */
  function Attempt(d: Driver, depth: nat, k: nat): Run {
    if k < MAX_ATTEMPTS then Loading(depth, k) else Return(d, depth, Some(ErrConflict))
  }

  function Mark(d: Driver, depth: nat, k: nat, saga: Row<Status>, j: nat): Run {
    if j < MAX_ATTEMPTS then MarkGet(depth, k, saga, j) else Attempt(d, depth, k + 1)
  }

  function ReadAgain(j: nat): Run { if j < MAX_ATTEMPTS then ReadGet(j) else Over(ErrConflict) }

  function FeedBegin(d: Driver, r: Reply): Run {
    match d.run
    case BeginRegistered => if r.Done? then BeginMail else Over(ErrOther)
    case BeginMail => if r.Done? then BeginGet else Over(if r.NotFound? then ErrNotFound else ErrOther)
    case BeginGet =>
      if r.Saga? then (if r.status.Completed? then Over(Claimed) else Loading(0, 0))
      else if r.NotFound? then BeginList
      else Over(ErrOther)
    case BeginList => if r.Free? then BeginState else if r.Blocked? then Over(ErrConflict) else Over(ErrOther)
    case BeginState =>
      if r.State? then (if r.bits.claimed then Over(ErrConflict) else BeginInsert)
      else if r.NotFound? then BeginInsert
      else Over(ErrOther)
    case BeginInsert => if r.Done? then Loading(0, 0) else if r.AlreadyExists? then BeginReget else Over(ErrOther)
    case BeginReget =>
      if r.Saga? then (if r.status.Completed? then Over(Claimed) else Loading(0, 0))
      else if r.NotFound? then Over(ErrNotFound) else Over(ErrOther)
    case FinalGet => if r.Saga? then Over(if r.status.Completed? then Claimed else NotReady) else Over(ErrOther)
    case _ => d.run
  }

  function Dispatch(d: Driver, depth: nat, k: nat, status: Status, version: nat): Run {
    match status
    case Completed => Return(d, depth, None)
    case Available => Return(d, depth, None)
    case Claiming => Applying(depth, k, Row(status, version))
    case Init => Applying(depth, k, Row(status, version))
    case PlayerApplied => Mark(d, depth, k, Row(status, version), 0)
    case Cancelling => Finishing(depth, k, Row(status, version))
    case Other => Return(d, depth, Some(ErrOther))
  }

  function FeedAdvance(d: Driver, r: Reply): Run {
    match d.run
    case Loading(depth, k) =>
      if r.Saga? then Dispatch(d, depth, k, r.status, r.version)
      else Return(d, depth, Some(if r.NotFound? then ErrNotFound else ErrOther))
    case Applying(depth, k, saga) =>
      if r.Paid? then Recording(depth, k, saga)
      else if r.Full? then Withdrawing(depth, saga)
      else Return(d, depth, Some(ErrOther))
    case Recording(depth, k, _) =>
      if r.Done? || r.Conflict? then Attempt(d, depth, k + 1) else Return(d, depth, Some(ErrOther))
    case MarkGet(depth, k, saga, j) =>
      if r.NotFound? then MarkInsert(depth, k, saga, j)
      else if !r.State? then Return(d, depth, Some(ErrOther))
      else if r.bits.claimed then Completing(depth, k, saga)
      else MarkUpdate(depth, k, saga, j, Row(r.bits, r.version))
    case MarkInsert(depth, k, saga, j) =>
      if r.Done? then Completing(depth, k, saga)
      else if r.AlreadyExists? then Mark(d, depth, k, saga, j + 1)
      else Return(d, depth, Some(ErrOther))
    case MarkUpdate(depth, k, saga, j, _) =>
      if r.Done? then Completing(depth, k, saga)
      else if r.Conflict? then Mark(d, depth, k, saga, j + 1)
      else Return(d, depth, Some(ErrOther))
    case Completing(depth, k, _) =>
      if r.Done? then Return(d, depth, None)
      else if r.Conflict? then Attempt(d, depth, k + 1)
      else Return(d, depth, Some(ErrOther))
    case Withdrawing(depth, _) =>
      if r.Done? then Loading(depth + 1, 0) else Return(d, depth, Some(if r.Conflict? then ErrConflict else ErrOther))
    case Finishing(depth, k, _) =>
      if r.Done? then Return(d, depth, Some(ErrInventoryFull))
      else if r.Conflict? then Attempt(d, depth, k + 1)
      else Return(d, depth, Some(ErrOther))
    case _ => d.run
  }

  function FeedRead(d: Driver, r: Reply): Run {
    match d.run
    case ReadGet(j) =>
      if r.NotFound? then ReadInsert(j)
      else if !r.State? then Over(ErrOther)
      else if r.bits.read then Over(Read)
      else ReadUpdate(j, Row(r.bits, r.version))
    case ReadInsert(j) =>
      if r.Done? then Over(Read) else if r.AlreadyExists? then ReadAgain(j + 1) else Over(ErrOther)
    case ReadUpdate(j, _) =>
      if r.Done? then Over(Read) else if r.Conflict? then ReadAgain(j + 1) else Over(ErrOther)
    case _ => d.run
  }

  predicate OfBegin(run: Run) {
    run.BeginRegistered? || run.BeginMail? || run.BeginGet? || run.BeginList? || run.BeginState? || run.BeginInsert? || run.BeginReget? || run.FinalGet?
  }

  predicate OfRead(run: Run) { run.ReadGet? || run.ReadInsert? || run.ReadUpdate? }

  function Feed(d: Driver, r: Reply): Driver {
    d.(run := if OfBegin(d.run) then FeedBegin(d, r) else if OfRead(d.run) then FeedRead(d, r) else FeedAdvance(d, r))
  }

  // ------------------------------------------------------------- the world

  /** What the zone does with a claim it has not paid. The lookups before a claim are
      answered by the environment too: found, not there, or failed. */
  datatype Choice = Pay | Refuse | Decline

  /** `paid` are the zone's receipts for this mail. It keeps none of a refusal; `refused`
      remembers which claims it answered with a full inventory, for the statements
      below. */
  datatype World = World(
    state: Option<Row<Bits>>, sagas: map<nat, Row<Status>>, paid: set<nat>, refused: set<nat>,
    drivers: map<nat, Driver>)

  const FRESH := World(None, map[], {}, {}, map[])

  /** A claim in one of these states keeps other claims out. */
  predicate Blocking(s: Status) { !s.Available? && !s.Other? }

  function Looked(choice: Choice): Reply { if choice.Pay? then Done else if choice.Refuse? then NotFound else Failed }

  /** The first thing ClaimMail does; a request that carries the time of registration
      saves its lookup. */
  function StartOfClaim(hinted: bool): Run { if hinted then BeginMail else BeginRegistered }

  /** One call. The zone answers a claim it has paid with the payment it made, declines
      every other claim of a mail it has paid, and otherwise pays, refuses for a full
      inventory or fails. */
  function Perform(w: World, c: Call, choice: Choice): (World, Reply) {
    match c
    case NoCall => (w, Failed)
    case GetRegistered => (w, Looked(choice))
    case GetMail => (w, Looked(choice))
    case GetState => (w, if w.state.None? then NotFound else State(w.state.value.value, w.state.value.version))
    case InsertState(bits) =>
      if w.state.None? then (w.(state := Some(Row(bits, 1))), Done) else (w, AlreadyExists)
    case UpdateState(bits, v) =>
      if w.state.None? then (w, NotFound)
      else if w.state.value.version != v then (w, Conflict)
      else (w.(state := Some(Row(bits, v + 1))), Done)
    case GetSaga(id) => (w, if id in w.sagas then Saga(w.sagas[id].value, w.sagas[id].version) else NotFound)
    case ListSagas(id) =>
      (w, if exists o :: o in w.sagas && o != id && Blocking(w.sagas[o].value) then Blocked else Free)
    case InsertSaga(id) =>
      if id in w.sagas then (w, AlreadyExists) else (w.(sagas := w.sagas[id := Row(Claiming, 1)]), Done)
    case UpdateSaga(id, status, v) =>
      if id !in w.sagas then (w, NotFound)
      else if w.sagas[id].version != v then (w, Conflict)
      else (w.(sagas := w.sagas[id := Row(status, v + 1)]), Done)
    case Apply(id) =>
      if id in w.paid then (w, Paid)
      else if w.paid != {} then (w, Declined)
      else match choice {
        case Pay => (w.(paid := w.paid + {id}), Paid)
        case Refuse => (w.(refused := w.refused + {id}), Full)
        case Decline => (w, Declined)
      }
  }

  datatype Event =
    | StartClaim(id: nat, claim: nat, hinted: bool) | StartAdvance(id: nat, claim: nat) | StartRead(id: nat)
    | Move(id: nat, fault: Fault, choice: Choice)

  function SetDriver(w: World, id: nat, d: Driver): World { w.(drivers := w.drivers[id := d]) }

  function Step(w: World, e: Event): World {
    match e
    case StartClaim(id, c, hinted) => if id in w.drivers then w else SetDriver(w, id, Driver(c, true, StartOfClaim(hinted)))
    case StartAdvance(id, c) => if id in w.drivers then w else SetDriver(w, id, Driver(c, false, Loading(0, 0)))
    case StartRead(id) => if id in w.drivers then w else SetDriver(w, id, Driver(0, false, ReadGet(0)))
    case Move(id, fault, choice) =>
      if id !in w.drivers then w
      else
        var d := w.drivers[id];
        if fault.Refuse? then SetDriver(w, id, Feed(d, Failed))
        else
          var (t, r) := Perform(w, CallOf(d), choice);
          SetDriver(t, id, Feed(d, if fault.Fine? then r else Failed))
  }

  function RunAll(w: World, es: seq<Event>): World
    decreases |es|
  {
    if es == [] then w else RunAll(Step(w, es[0]), es[1..])
  }

  // ------------------------------------------------------------- the invariant

  /** The way a claim may go. */
  predicate Path(a: Status, b: Status) {
    a == b
    || ((a.Init? || a.Claiming?) && (b.PlayerApplied? || b.Completed? || b.Cancelling? || b.Available?))
    || (a.PlayerApplied? && b.Completed?)
    || (a.Cancelling? && b.Available?)
  }

  predicate IsClaimed(w: World) { w.state.Some? && w.state.value.value.claimed }

  predicate StatusOK(w: World, c: nat, s: Status) {
    && (s.PlayerApplied? || s.Completed? ==> c in w.paid)
    && (s.Completed? ==> IsClaimed(w))
    && (s.Cancelling? || s.Available? ==> c in w.refused)
  }

  predicate SagasOK(w: World) {
    forall c :: c in w.sagas ==> StatusOK(w, c, w.sagas[c].value)
  }

  predicate ZoneOK(w: World) { forall a, b :: a in w.paid && b in w.paid ==> a == b }

  /** A private copy of a claim is current when its version is, and never newer. */
  predicate SagaCopy(w: World, c: nat, row: Row<Status>) {
    && c in w.sagas && row.version <= w.sagas[c].version && Path(row.value, w.sagas[c].value)
    && (row.version == w.sagas[c].version ==> row == w.sagas[c])
  }

  predicate BitsCopy(w: World, row: Row<Bits>) {
    w.state.Some? && row.version <= w.state.value.version && (row.version == w.state.value.version ==> row == w.state.value)
  }

  /** Inside a cancelClaim the claim is being cancelled, or has been. */
  predicate DepthOK(w: World, c: nat, depth: nat) {
    depth > 0 ==> depth == 1 && c in w.sagas && (w.sagas[c].value.Cancelling? || w.sagas[c].value.Available?)
  }

  predicate Open(s: Status) { s.Init? || s.Claiming? }

  predicate RunOK(w: World, c: nat, run: Run) {
    match run
    case Loading(depth, _) => DepthOK(w, c, depth)
    case Applying(depth, _, saga) => depth == 0 && SagaCopy(w, c, saga) && Open(saga.value)
    case Recording(depth, _, saga) => depth == 0 && SagaCopy(w, c, saga) && Open(saga.value) && c in w.paid
    case MarkGet(depth, _, saga, _) => depth == 0 && SagaCopy(w, c, saga) && saga.value.PlayerApplied? && c in w.paid
    case MarkInsert(depth, _, saga, _) => depth == 0 && SagaCopy(w, c, saga) && saga.value.PlayerApplied? && c in w.paid
    case MarkUpdate(depth, _, saga, _, bits) =>
      depth == 0 && SagaCopy(w, c, saga) && saga.value.PlayerApplied? && c in w.paid && BitsCopy(w, bits)
    case Completing(depth, _, saga) =>
      depth == 0 && SagaCopy(w, c, saga) && saga.value.PlayerApplied? && c in w.paid && IsClaimed(w)
    case Withdrawing(depth, saga) => depth == 0 && SagaCopy(w, c, saga) && Open(saga.value) && c in w.refused
    case Finishing(depth, _, saga) =>
      DepthOK(w, c, depth) && SagaCopy(w, c, saga) && saga.value.Cancelling? && c in w.refused
    case ReadUpdate(_, bits) => BitsCopy(w, bits)
    case FinalGet => Ended(w, c)
    case Over(o) => AnswerOK(w, c, o)
    case _ => true
  }

  predicate Ended(w: World, c: nat) { c in w.sagas && (w.sagas[c].value.Completed? || w.sagas[c].value.Available?) }

  /** What an answer says about the tables. */
  predicate AnswerOK(w: World, c: nat, o: Outcome) {
    match o
    case Claimed => c in w.sagas && w.sagas[c].value.Completed?
    case NotReady => c in w.sagas && w.sagas[c].value.Available?
    case Advanced => Ended(w, c)
    case ErrInventoryFull => c in w.refused && c in w.sagas && (w.sagas[c].value.Cancelling? || w.sagas[c].value.Available?)
    case Read => w.state.Some? && w.state.value.value.read
    case _ => true
  }

  predicate DriversOK(w: World) {
    forall i :: i in w.drivers ==> RunOK(w, w.drivers[i].claim, w.drivers[i].run)
  }

  predicate Inv(w: World) { SagasOK(w) && ZoneOK(w) && DriversOK(w) }

  /** Nothing goes back: not the bits, not a claim, not the zone's receipts. */
  predicate BitsLater(a: Option<Row<Bits>>, b: Option<Row<Bits>>) {
    a.Some? ==> (
      && b.Some? && a.value.version <= b.value.version && (a.value.version == b.value.version ==> a == b)
      && (a.value.value.read ==> b.value.value.read) && (a.value.value.claimed ==> b.value.value.claimed))
  }

  predicate SagaLater(a: Row<Status>, b: Row<Status>) {
    a.version <= b.version && Path(a.value, b.value) && (a.version == b.version ==> a == b)
  }

  predicate Later(w: World, t: World) {
    && BitsLater(w.state, t.state)
    && w.paid <= t.paid && w.refused <= t.refused
    && forall c :: c in w.sagas ==> c in t.sagas && SagaLater(w.sagas[c], t.sagas[c])
  }

  lemma RunLater(w: World, t: World, c: nat, run: Run)
    requires RunOK(w, c, run) && Later(w, t)
    ensures RunOK(t, c, run)
  {
    if c in w.sagas { assert SagaLater(w.sagas[c], t.sagas[c]); }
  }

  lemma SelfLater(w: World)
    ensures Later(w, w)
  {
  }

  // ------------------------------------------------------------- every step keeps it

  predicate Good(w: World, t: World) { Later(w, t) && SagasOK(t) && ZoneOK(t) && t.drivers == w.drivers }

  lemma SagaUpdateIsGood(w: World, c: nat, status: Status, v: nat)
    requires Inv(w) && c in w.sagas && w.sagas[c].version == v
    requires Path(w.sagas[c].value, status) && StatusOK(w, c, status)
    ensures Good(w, w.(sagas := w.sagas[c := Row(status, v + 1)]))
  {
    hide DriversOK;
    var t := w.(sagas := w.sagas[c := Row(status, v + 1)]);
    forall o | o in t.sagas ensures StatusOK(t, o, t.sagas[o].value) {
      if o != c { assert StatusOK(w, o, w.sagas[o].value); }
    }
  }

  lemma StateChangeIsGood(w: World, state: Row<Bits>)
    requires Inv(w) && BitsLater(w.state, Some(state))
    ensures Good(w, w.(state := Some(state)))
  {
    hide DriversOK;
    var t := w.(state := Some(state));
    forall o | o in t.sagas ensures StatusOK(t, o, t.sagas[o].value) {
      assert StatusOK(w, o, w.sagas[o].value);
    }
  }

  lemma ZoneIsGood(w: World, c: nat, choice: Choice)
    requires Inv(w)
    ensures Good(w, Perform(w, Apply(c), choice).0)
  {
    hide DriversOK;
    var t := Perform(w, Apply(c), choice).0;
    forall o | o in t.sagas ensures StatusOK(t, o, t.sagas[o].value) {
      assert StatusOK(w, o, w.sagas[o].value);
    }
  }

  lemma InsertIsGood(w: World, c: nat)
    requires Inv(w)
    ensures Good(w, Perform(w, InsertSaga(c), Decline).0)
  {
    hide DriversOK;
    var t := Perform(w, InsertSaga(c), Decline).0;
    forall o | o in t.sagas ensures StatusOK(t, o, t.sagas[o].value) {
      if o in w.sagas { assert StatusOK(w, o, w.sagas[o].value); }
    }
  }

  lemma CallIsGood(w: World, d: Driver, choice: Choice)
    requires Inv(w) && RunOK(w, d.claim, d.run)
    ensures Good(w, Perform(w, CallOf(d), choice).0)
  {
    hide DriversOK, Good, Later;
    SameIsGood(w);
    var c := d.claim;
    match d.run
    case Applying(_, _, _) => ZoneIsGood(w, c, choice);
    case BeginInsert => InsertIsGood(w, c);
    case Recording(_, _, saga) => if w.sagas[c].version == saga.version { SagaUpdateIsGood(w, c, PlayerApplied, saga.version); }
    case Completing(_, _, saga) => if w.sagas[c].version == saga.version { SagaUpdateIsGood(w, c, Completed, saga.version); }
    case Withdrawing(_, saga) => if w.sagas[c].version == saga.version { SagaUpdateIsGood(w, c, Cancelling, saga.version); }
    case Finishing(_, _, saga) => if w.sagas[c].version == saga.version { SagaUpdateIsGood(w, c, Available, saga.version); }
    case MarkInsert(_, _, _, _) => if w.state.None? { StateChangeIsGood(w, Row(Bits(true, true), 1)); }
    case ReadInsert(_) => if w.state.None? { StateChangeIsGood(w, Row(Bits(true, false), 1)); }
    case MarkUpdate(_, _, _, _, bits) =>
      if w.state.value.version == bits.version { StateChangeIsGood(w, Row(Bits(true, true), bits.version + 1)); }
    case ReadUpdate(_, bits) =>
      if w.state.value.version == bits.version { StateChangeIsGood(w, Row(bits.value.(read := true), bits.version + 1)); }
    case _ =>
  }

  lemma SameIsGood(w: World)
    requires Inv(w)
    ensures Good(w, w)
  {
  }

  lemma FeedBeginOK(w: World, d: Driver, choice: Choice)
    requires Inv(w) && RunOK(w, d.claim, d.run) && OfBegin(d.run)
    ensures var (t, r) := Perform(w, CallOf(d), choice); RunOK(t, d.claim, FeedBegin(d, r))
  {
    hide DriversOK, SagasOK, ZoneOK, Blocking;
  }

  lemma FeedReadOK(w: World, d: Driver, choice: Choice)
    requires RunOK(w, d.claim, d.run) && OfRead(d.run)
    ensures var (t, r) := Perform(w, CallOf(d), choice); RunOK(t, d.claim, FeedRead(d, r))
  {
    hide SagaCopy, DepthOK;
  }

  lemma FeedLoadingOK(w: World, d: Driver)
    requires Inv(w) && RunOK(w, d.claim, d.run) && d.run.Loading?
    ensures RunOK(w, d.claim, FeedAdvance(d, Perform(w, CallOf(d), Decline).1))
  {
    hide DriversOK, ZoneOK, BitsCopy;
    if d.claim in w.sagas { assert StatusOK(w, d.claim, w.sagas[d.claim].value); }
  }

  lemma FeedAdvanceOK(w: World, d: Driver, choice: Choice)
    requires Inv(w) && RunOK(w, d.claim, d.run) && !OfRead(d.run) && !OfBegin(d.run) && !d.run.Loading?
    ensures var (t, r) := Perform(w, CallOf(d), choice); RunOK(t, d.claim, FeedAdvance(d, r))
  {
    hide DriversOK, SagasOK, ZoneOK;
  }

  lemma FeedFailedOK(w: World, d: Driver)
    requires RunOK(w, d.claim, d.run)
    ensures RunOK(w, d.claim, Feed(d, Failed).run)
  {
    hide SagaCopy, BitsCopy, DepthOK;
  }

  lemma DriversKept(w: World, t: World, id: nat, d: Driver)
    requires DriversOK(w) && Good(w, t) && RunOK(t, d.claim, d.run)
    ensures Inv(SetDriver(t, id, d)) && Later(w, SetDriver(t, id, d))
  {
    var u := SetDriver(t, id, d);
    RowsKept(w, t, u);
    hide Later, RunOK, Good, SagasOK, ZoneOK;
    GoodDrivers(w, t);
    forall i | i in u.drivers ensures RunOK(u, u.drivers[i].claim, u.drivers[i].run) {
      if i != id { RunLater(w, u, w.drivers[i].claim, w.drivers[i].run); } else { SameRun(t, u, d.claim, d.run); }
    }
  }

  lemma GoodDrivers(w: World, t: World)
    requires Good(w, t)
    ensures t.drivers == w.drivers
  {
  }

  lemma RowsKept(w: World, t: World, u: World)
    requires Good(w, t) && u == t.(drivers := u.drivers)
    ensures Later(w, u) && SagasOK(u) && ZoneOK(u)
  {
    forall c | c in u.sagas ensures StatusOK(u, c, u.sagas[c].value) { assert StatusOK(t, c, t.sagas[c].value); }
  }

  lemma SameRun(t: World, u: World, c: nat, run: Run)
    requires RunOK(t, c, run) && u == t.(drivers := u.drivers)
    ensures RunOK(u, c, run)
  {
  }

  lemma StepKeeps(w: World, e: Event)
    requires Inv(w)
    ensures Inv(Step(w, e)) && Later(w, Step(w, e))
  {
    hide Later, RunOK, Good, SagasOK, ZoneOK, Perform, CallOf, FeedBegin, FeedAdvance, FeedRead, OfBegin, OfRead;
    SelfLater(w);
    SameIsGood(w);
    match e
    case StartClaim(id, c, hinted) =>
      if id !in w.drivers { StartOK(w, c); DriversKept(w, w, id, Driver(c, true, StartOfClaim(hinted))); }
    case StartAdvance(id, c) => if id !in w.drivers { StartOK(w, c); DriversKept(w, w, id, Driver(c, false, Loading(0, 0))); }
    case StartRead(id) => if id !in w.drivers { StartOK(w, 0); DriversKept(w, w, id, Driver(0, false, ReadGet(0))); }
    case Move(id, fault, choice) => if id in w.drivers { MoveKeeps(w, id, fault, choice); }
  }

  lemma StartOK(w: World, c: nat)
    ensures RunOK(w, c, BeginMail) && RunOK(w, c, BeginRegistered) && RunOK(w, c, Loading(0, 0)) && RunOK(w, c, ReadGet(0))
  {
  }

  lemma MoveKeeps(w: World, id: nat, fault: Fault, choice: Choice)
    requires Inv(w) && id in w.drivers
    ensures Inv(Step(w, Move(id, fault, choice))) && Later(w, Step(w, Move(id, fault, choice)))
  {
    hide Later, RunOK, Good, SagasOK, ZoneOK, Perform, CallOf, FeedBegin, FeedAdvance, FeedRead;
    var d := w.drivers[id];
    SameIsGood(w);
    if fault.Refuse? {
      FeedFailedOK(w, d);
      DriversKept(w, w, id, Feed(d, Failed));
    } else {
      var (t, r) := Perform(w, CallOf(d), choice);
      CallIsGood(w, d, choice);
      GoodLater(w, t);
      if fault.Lose? {
        RunLater(w, t, d.claim, d.run);
        FeedFailedOK(t, d);
      } else if OfBegin(d.run) { FeedBeginOK(w, d, choice); }
      else if OfRead(d.run) { FeedReadOK(w, d, choice); }
      else if d.run.Loading? { FeedLoadingOK(w, d); LoadingCall(w, d, choice); }
      else { FeedAdvanceOK(w, d, choice); }
      DriversKept(w, t, id, Feed(d, if fault.Fine? then r else Failed));
    }
  }

  lemma GoodLater(w: World, t: World)
    requires Good(w, t)
    ensures Later(w, t)
  {
  }

  lemma LoadingCall(w: World, d: Driver, choice: Choice)
    requires d.run.Loading?
    ensures Perform(w, CallOf(d), choice) == (w, Perform(w, CallOf(d), Decline).1)
  {
  }
}
