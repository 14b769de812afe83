/** The friend-interaction saga (steal, pest, catch and clean are one machine): any
    number of drivers of one interaction, each holding a private copy of its record,
    over a compare-and-swap store, an idempotent visitor and an owner. A driver may
    stop at any point and every call may fail or lose its reply. */
module InteractionSaga {
  import opened Common
  import opened Bytes
  import opened RequestDigest

  const MAX_SAGA_STEPS: nat := 32
  const REQUEST_ID_CONFLICT: nat := 105

  datatype Status =
    | Unspecified | Init | VisitorReserved | OwnerApplied | VisitorCommitted | Completed | Releasing | Aborted

  datatype Code = NoCode | TransportError | Domain(number: nat)

  /** The response the visitor commits; it echoes the owner's farm patch. */
  datatype Receipt = Receipt(number: int, patch: Option<int>)

  /** What the record carries: the owner's farm patch, then the visitor's response. */
  datatype Payload = Empty | Intermediate(patch: int) | Final(receipt: Receipt)

  datatype Record = Record(request: Request, status: Status, payload: Payload, code: Code)

  datatype Call =
    | NoCall | Get | Insert(record: Record) | Update(record: Record, version: nat)
    | Reserve(request: Request) | AskOwner(request: Request)
    | Commit(request: Request, payload: Payload) | Release(request: Request)

  datatype Reply =
    | Failed | NotFound | AlreadyExists | Done(version: nat)
    | Found(record: Record, version: nat)
    | Rejected(code: nat)
    | Applied(patch: int)
    | Response(receipt: Receipt)

  datatype Failure = InvalidRequest | DigestConflict | StoreFailed | NotConverged | UnknownStatus | UndecodableResult

  datatype Outcome =
    | Success(receipt: Receipt) | AbortedWith(code: Code) | OutcomeUnknown | Error(failure: Failure)

  datatype At = Reserving | Asking | Committing | Freeing | Writing(next: Record, retry: bool)

  datatype Run =
    | EntryGet | EntryInsert | EntryReget | EntryResume
    | Advancing(at: At, record: Record, version: nat, steps: nat)
    | Finished(outcome: Outcome)

  /** `checked` tells Execute, which compares digests, from Resume, which does not. */
  datatype Driver = Driver(request: Request, checked: bool, run: Run)

  function NewRecord(r: Request): Record { Record(r, Init, Empty, NoCode) }

  function StartExecute(r: Request): Driver {
    Driver(r, true, if Valid(r) then EntryGet else Finished(Error(InvalidRequest)))
  }

  function StartResume(r: Request): Driver {
    Driver(r, false, if Valid(r) then EntryResume else Finished(Error(InvalidRequest)))
  }

  /** The top of loop iteration `n`. */
  function Enter(g: Record, v: nat, n: nat): Run {
    if n >= MAX_SAGA_STEPS then Finished(Error(NotConverged))
    else
      match g.status
      case Init => Advancing(Reserving, g, v, n)
      case VisitorReserved => Advancing(Asking, g, v, n)
      case OwnerApplied => Advancing(Committing, g, v, n)
      case VisitorCommitted => Advancing(Writing(g.(status := Completed), false), g, v, n)
      case Completed =>
        if g.payload.Final? then Finished(Success(g.payload.receipt)) else Finished(Error(UndecodableResult))
      case Releasing => Advancing(Freeing, g, v, n)
      case Aborted => Finished(AbortedWith(g.code))
      case Unspecified => Finished(Error(UnknownStatus))
  }

  function CallOf(d: Driver): Call {
    match d.run
    case EntryGet => Get
    case EntryInsert => Insert(NewRecord(d.request))
    case EntryReget => Get
    case EntryResume => Get
    case Advancing(at, g, v, _) =>
      (match at
       case Reserving => Reserve(d.request)
       case Asking => AskOwner(d.request)
       case Committing => Commit(d.request, g.payload)
       case Freeing => Release(d.request)
       case Writing(next, _) => Update(next, v))
    case Finished(_) => NoCall
  }

  /** deferRetry keeps the status and only notes the transport error. */
  function Defer(g: Record, v: nat, n: nat): Run {
    Advancing(Writing(g.(code := TransportError), true), g, v, n)
  }

  function Persist(g: Record, v: nat, n: nat, next: Record): Run {
    Advancing(Writing(next, false), g, v, n)
  }

  function FeedAdvance(at: At, g: Record, v: nat, n: nat, r: Reply): Run {
    match at
    case Reserving =>
      if r.Done? then Persist(g, v, n, g.(status := VisitorReserved))
      else if r.Rejected? then Persist(g, v, n, g.(status := Releasing, code := Domain(r.code)))
      else Defer(g, v, n)
    case Asking =>
      if r.Applied? then Persist(g, v, n, g.(status := OwnerApplied, payload := Intermediate(r.patch)))
      else if r.Rejected? then Persist(g, v, n, g.(status := Releasing, code := Domain(r.code)))
      else Defer(g, v, n)
    case Committing =>
      if r.Response? then Persist(g, v, n, g.(status := VisitorCommitted, payload := Final(r.receipt)))
      else Defer(g, v, n)
    case Freeing => Persist(g, v, n, g.(status := Aborted))
    case Writing(next, retry) =>
      if r.Done? then if retry then Finished(OutcomeUnknown) else Enter(next, r.version, n + 1)
      else Finished(Error(StoreFailed))
  }

  /** The digest check of createOrLoad: the record was created for the same request. */
  function Admit(mine: Request, g: Record, v: nat): Run {
    if Preimage(g.request) == Preimage(mine) then Enter(g, v, 0) else Finished(Error(DigestConflict))
  }

  function Feed(d: Driver, r: Reply): Driver {
    Driver(d.request, d.checked,
           match d.run
           case EntryGet =>
             if r.Found? then Admit(d.request, r.record, r.version)
             else if r.NotFound? then EntryInsert
             else Finished(Error(StoreFailed))
           case EntryInsert =>
             if r.Done? then Enter(NewRecord(d.request), r.version, 0)
             else if r.AlreadyExists? then EntryReget
             else Finished(Error(StoreFailed))
           case EntryReget =>
             if r.Found? then Admit(d.request, r.record, r.version) else Finished(Error(StoreFailed))
           case EntryResume =>
             if r.Found? then Enter(r.record, r.version, 0) else Finished(Error(StoreFailed))
           case Advancing(at, g, v, n) => FeedAdvance(at, g, v, n, r)
           case Finished(o) => Finished(o))
  }

  function FeedAll(d: Driver, rs: seq<Reply>): Driver {
    if rs == [] then d else Feed(FeedAll(d, rs[..|rs| - 1]), rs[|rs| - 1])
  }

  // ------------------------------------------------------------ convergence

  function Rank(s: Status): nat {
    match s
    case Unspecified => 0
    case Init => 0
    case VisitorReserved => 1
    case OwnerApplied => 2
    case VisitorCommitted => 3
    case Completed => 4
    case Releasing => 2
    case Aborted => 3
  }

  predicate Paced(r: Run) {
    match r
    case Advancing(at, g, _, n) =>
      && n <= Rank(g.status)
      && (at.Reserving? ==> g.status == Init)
      && (at.Asking? ==> g.status == VisitorReserved)
      && (at.Committing? ==> g.status == OwnerApplied)
      && (at.Freeing? ==> g.status == Releasing)
      && (at.Writing? && !at.retry ==> n < Rank(at.next.status))
    case Finished(o) => o != Error(NotConverged)
    case _ => true
  }

  lemma FeedPaced(d: Driver, r: Reply)
    requires Paced(d.run)
    ensures Paced(Feed(d, r).run)
  {}

  /** Whatever is answered, the loop never leaves by its "did not converge" exit: at
      most four iterations are ever started after the first. */
  lemma {:induction false} AlwaysConverges(start: Driver, rs: seq<Reply>)
    requires start == StartExecute(start.request) || start == StartResume(start.request)
    ensures Paced(FeedAll(start, rs).run)
    ensures FeedAll(start, rs).run != Finished(Error(NotConverged))
    ensures FeedAll(start, rs).run.Advancing? ==> FeedAll(start, rs).run.steps <= 4 < MAX_SAGA_STEPS
  {
    if rs != [] {
      AlwaysConverges(start, rs[..|rs| - 1]);
      FeedPaced(FeedAll(start, rs[..|rs| - 1]), rs[|rs| - 1]);
    }
  }

  // ------------------------------------------------------------------ world

  /** The visitor's one reservation row for the interaction. Nothing removes it, and a
      released or consumed one is never reserved again. */
  datatype HoldState = Reserved | Released | Consumed

  /** Of the request the row keeps action, crop and quantity. */
  datatype Hold = Hold(state: HoldState, request: Request)

  function HoldFor(r: Request): Hold { Hold(Reserved, r) }

  /** The row was made with the fields of this request. */
  predicate IsFor(h: Hold, r: Request) {
    h.request.action == r.action && h.request.crop == r.crop && h.request.quantity == r.quantity
  }

  /** What the owner did, and for which request. */
  datatype Application = Application(request: Request, patch: int)

  /** The record, the owner's receipt, the visitor's reservation and receipt, and how
      often each side really changed. The owner keeps a receipt of what it applied and
      none of what it refused; `refusals` counts those for the statements below, and
      `codes` are the codes with which visitor or owner have refused. */
  datatype World = World(
    record: Option<Row<Record>>,
    applied: Option<Application>, applies: nat, refusals: nat, codes: set<nat>,
    hold: Option<Hold>,
    committed: Option<Receipt>, commits: nat,
    drivers: map<nat, Driver>)

  datatype Pick = Pick(yes: bool, reject: bool, number: int, code: nat)

  /** The owner as written. It may refuse any call: on the visit lease, which it checks
      before it looks for its receipt, or on the state of the plot, which may change
      between two calls. Otherwise it answers with its receipt, or applies the action
      and keeps one. */
  function AskOwnerOf(w: World, r: Request, pick: Pick): (World, Reply) {
    if pick.reject then (w.(refusals := w.refusals + 1, codes := w.codes + {pick.code}), Rejected(pick.code))
    else if w.applied.Some? then (w, Applied(w.applied.value.patch))
    else if pick.yes then
      (w.(applied := Some(Application(r, pick.number)), applies := w.applies + 1), Applied(pick.number))
    else (w, Failed)
  }

  /** A row that is there answers "already reserved" whatever has become of it, or a
      conflict if its fields differ; without one the capacity decides. */
  function ReserveOf(w: World, r: Request, pick: Pick): (World, Reply) {
    if w.hold.Some? && IsFor(w.hold.value, r) then (w, Done(0))
    else if w.hold.Some? then (w.(codes := w.codes + {REQUEST_ID_CONFLICT}), Rejected(REQUEST_ID_CONFLICT))
    else if pick.yes then (w.(hold := Some(HoldFor(r))), Done(0))
    else if pick.reject then (w.(codes := w.codes + {pick.code}), Rejected(pick.code))
    else (w, Failed)
  }

  /** A receipt answers every retry; otherwise a live reservation with the same fields is
      consumed, if the visitor still can. */
  function CommitOf(w: World, r: Request, payload: Payload, pick: Pick): (World, Reply) {
    if w.committed.Some? then (w, Response(w.committed.value))
    else if pick.yes && w.hold.Some? && w.hold.value.state == Reserved && IsFor(w.hold.value, r) then
      var receipt := Receipt(pick.number, if payload.Intermediate? then Some(payload.patch) else None);
      (w.(committed := Some(receipt), hold := Some(w.hold.value.(state := Consumed)), commits := w.commits + 1),
       Response(receipt))
    else (w, Failed)
  }

  /** A live reservation is released: the steal release looks at nothing else, the action
      release also at the action. */
  predicate Frees(h: Hold, r: Request) {
    h.state == Reserved && (r.action == STEAL || r.action == h.request.action)
  }

  function ReleaseOf(w: World, r: Request): (World, Reply) {
    if w.hold.Some? && Frees(w.hold.value, r)
    then (w.(hold := Some(w.hold.value.(state := Released))), Done(0)) else (w, Done(0))
  }

  function Apply(w: World, c: Call, pick: Pick): (World, Reply) {
    match c
    case NoCall => (w, Failed)
    case Get => (w, if w.record.Some? then Found(w.record.value.value, w.record.value.version) else NotFound)
    case Insert(g) =>
      if w.record.Some? then (w, AlreadyExists) else (w.(record := Some(Row(g, 1))), Done(1))
    case Update(g, v) =>
      if w.record.Some? && w.record.value.version == v
      then (w.(record := Some(Row(g, v + 1))), Done(v + 1)) else (w, Failed)
    case Reserve(r) => ReserveOf(w, r, pick)
    case AskOwner(r) => AskOwnerOf(w, r, pick)
    case Commit(r, payload) => CommitOf(w, r, payload, pick)
    case Release(r) => ReleaseOf(w, r)
  }

  function Perform(w: World, c: Call, fault: Fault, pick: Pick): (World, Reply) {
    match fault
    case Refuse => (w, Failed)
    case Fine => Apply(w, c, pick)
    case Lose => (Apply(w, c, pick).0, Failed)
  }

  datatype Event =
    | Execute(id: nat, request: Request)
    | Resume(id: nat, request: Request)
    | Act(id: nat, fault: Fault, pick: Pick)

  function Step(w: World, e: Event): World {
    match e
    case Execute(id, r) => if id in w.drivers then w else w.(drivers := w.drivers[id := StartExecute(r)])
    case Resume(id, r) => if id in w.drivers then w else w.(drivers := w.drivers[id := StartResume(r)])
    case Act(id, fault, pick) =>
      if id !in w.drivers then w
      else
        var d := w.drivers[id];
        var (w', r) := Perform(w, CallOf(d), fault, pick);
        w'.(drivers := w.drivers[id := Feed(d, r)])
  }

  function RunAll(w: World, es: seq<Event>): World {
    if es == [] then w else Step(RunAll(w, es[..|es| - 1]), es[|es| - 1])
  }

  const FRESH := World(None, None, 0, 0, {}, None, None, 0, map[])

  // -------------------------------------------------------------- invariant

  predicate Back(s: Status) { s == Releasing || s == Aborted }

  /** The owner has neither applied nor refused. */
  predicate Untouched(w: World) { w.applied.None? && w.refusals == 0 }

  predicate Forward(s: Status) { s != Unspecified && s != Releasing && s != Aborted }

  predicate Reached(s: Status, target: Status) { Forward(s) && Rank(target) <= Rank(s) }

  predicate Path(a: Status, b: Status) {
    || a == b
    || (Forward(a) && Forward(b) && Rank(a) <= Rank(b))
    || ((b == Releasing || b == Aborted) && (a == Init || a == VisitorReserved))
    || (a == Releasing && b == Aborted)
  }

  /** What a durable record at this status says about owner and visitor. */
  predicate Facts(w: World, g: Record) {
    && g.status != Unspecified
    && (g.status == Init ==> Untouched(w))
    && (!Reached(g.status, OwnerApplied) ==> w.committed.None?)
    && (Back(g.status) && w.refusals == 0 ==> w.applied.None?)
    && Owned(w, g)
  }

  /** The part of it that no later step can undo. */
  predicate Owned(w: World, g: Record) {
    && (Back(g.status) ==> g.code.Domain? && g.code.number in w.codes)
    && (Reached(g.status, VisitorReserved) ==> w.hold.Some?)
    && (Reached(g.status, OwnerApplied) ==> w.applied.Some?)
    && (g.status == OwnerApplied ==> g.payload == Intermediate(w.applied.value.patch))
    && (Reached(g.status, VisitorCommitted) ==> w.committed.Some? && g.payload == Final(w.committed.value))
  }

  predicate LaterRow(a: Row<Record>, b: Row<Record>) {
    && a.version <= b.version
    && (a.version == b.version ==> a.value == b.value)
    && Path(a.value.status, b.value.status)
    && a.value.request == b.value.request
    && (Back(a.value.status) ==> a.value.code == b.value.code)
  }

  predicate Lineage(w: World, g: Record, v: nat) {
    w.record.Some? && LaterRow(Row(g, v), w.record.value)
  }

  /** A driver past INIT saw the reservation made: if the record went back after that,
      the owner sent it back. */
  predicate SentBack(w: World, g: Record)
    requires w.record.Some?
  {
    var now := w.record.value.value.status;
    g.status == VisitorReserved && Back(now) ==> w.refusals > 0
  }

  predicate AtOK(w: World, g: Record, v: nat, at: At)
    requires w.record.Some?
  {
    match at
    case Reserving => g.status == Init
    case Asking => g.status == VisitorReserved
    case Committing => g.status == OwnerApplied
    case Freeing => g.status == Releasing
    case Writing(next, retry) =>
      && (retry ==> next == g.(code := TransportError))
      && LaterRow(Row(g, v), Row(next, v + 1))
      && next.status != Unspecified
      && Owned(w, next)
      && (w.record.value.version == v ==> Facts(w, next))
      && (g.status == VisitorReserved && Back(next.status) ==> w.refusals > 0)
  }

  /** The driver's answer, or the work it is at, is about the durable record. */
  predicate Involved(d: Driver) {
    d.run.Advancing?
    || (d.run.Finished? && (d.run.outcome.Success? || d.run.outcome.AbortedWith? || d.run.outcome.OutcomeUnknown?))
  }

  /** Execute works on, and answers from, only a record of the same request. */
  predicate Matches(w: World, d: Driver) {
    d.checked && Involved(d) ==> (
      && w.record.Some? && Valid(d.request) && Valid(w.record.value.value.request)
      && Preimage(d.request) == Preimage(w.record.value.value.request))
  }

  predicate DriverOK(w: World, d: Driver) {
    && Matches(w, d)
    && (match d.run
    case Advancing(at, g, v, n) =>
      && Lineage(w, g, v) && g.status != Unspecified && Owned(w, g) && AtOK(w, g, v, at)
      && SentBack(w, g)
    case Finished(Success(receipt)) =>
      w.record.Some? && w.record.value.value.status == Completed && w.committed == Some(receipt)
    case Finished(AbortedWith(code)) =>
      w.record.Some? && w.record.value.value.status == Aborted && w.record.value.value.code == code
    case Finished(_) => true
    case EntryResume => !d.checked
    case _ => Valid(d.request))
  }

  /** The reservation follows the record: none before it, released only behind one that
      went back, consumed exactly when the visitor committed. */
  predicate HoldOK(w: World) {
    && (w.hold.Some? ==> w.record.Some?)
    && (w.hold.Some? && w.hold.value.state == Released ==> Back(w.record.value.value.status))
    && (w.committed.Some? <==> w.hold.Some? && w.hold.value.state == Consumed)
  }

  predicate Inv(w: World) {
    && HoldOK(w)
    && (w.record.Some? ==> Facts(w, w.record.value.value) && Valid(w.record.value.value.request))
    && (w.record.None? ==> Untouched(w) && w.committed.None?)
    && (w.committed.Some? ==> w.applied.Some? && w.committed.value.patch == Some(w.applied.value.patch))
    && w.applies == (if w.applied.Some? then 1 else 0)
    && w.commits == (if w.committed.Some? then 1 else 0)
    && forall id :: id in w.drivers ==> DriverOK(w, w.drivers[id])
  }

  /** A reservation keeps its fields, and one released or consumed stays so. */
  predicate LaterHold(a: Hold, b: Hold) {
    a.(state := b.state) == b && (a.state != Reserved ==> a == b)
  }

  /** What every step may change. */
  predicate Later(w: World, t: World) {
    && (w.record.Some? ==> t.record.Some? && LaterRow(w.record.value, t.record.value))
    && (w.applied.Some? ==> t.applied == w.applied)
    && (w.committed.Some? ==> t.committed == w.committed)
    && (w.hold.Some? ==> t.hold.Some? && LaterHold(w.hold.value, t.hold.value))
    && w.refusals <= t.refusals && w.codes <= t.codes
    && (t.committed != w.committed ==> w.record.Some? && Reached(w.record.value.value.status, OwnerApplied))
    && (t.applied != w.applied || t.refusals != w.refusals ==> w.record.Some? && w.record.value.value.status != Init)
    && (t.applied != w.applied && w.record.Some? && Back(w.record.value.value.status) ==> w.refusals > 0)
  }
}
