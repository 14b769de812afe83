/** One run of EstablishFriendship, or of the reconciler, as an automaton: it is
    always waiting for the reply to one call, and `Feed` says where each reply takes
    it. The saga copy and its version are private to the driver. */
module FriendLinkDriver {
  import opened FriendLists

  const MAX_SAGA_STEPS: nat := 32
  const MAX_CAS_ATTEMPTS: nat := 8

  datatype Status =
    | Unspecified
    | Init | LowReserved | BothReserved | RelationActive | ProjectionsApplied
    | TaskCrediting | FirstRewardChecked | RewardMailsCreated | Completed
    | Releasing | Aborted

  datatype MailStatus = MailUnset | MailPending | MailApplied | MailSkipped

  datatype Saga = Saga(
    link: Link, owner: PlayerId, low: PlayerId, high: PlayerId, relation: RelationId,
    status: Status, lowCredited: bool, highCredited: bool,
    claimed: bool, inviterMail: MailStatus, inviteeMail: MailStatus, lastError: LastError)

  datatype LastError = NoError | TaskCreditFailed | FirstRewardCheckFailed | RewardMailFailed

  datatype Failure =
    | PlayerIdsRequired | CannotFriendSelf | NotConverged | UnknownStatus
    | ListFailed | NoAccountName | RelationFailed | SagaFailed

  datatype MailSide = ToInviter | ToInvitee

  /** The idempotency key of a reward mail. It names the invitee and the side only. */
  datatype SourceId = SourceId(invitee: PlayerId, side: MailSide)

  datatype Call =
    | NoCall
    | GetRelation(low: PlayerId, high: PlayerId)
    | InsertRelation(low: PlayerId, high: PlayerId, relation: RelationId)
    | GetSaga(link: Link)
    | MintRelation(link: Link)
    | InsertSaga(saga: Saga)
    | UpdateSaga(saga: Saga, version: nat)
    | GetList(player: PlayerId)
    | InsertList(player: PlayerId)
    | UpdateList(player: PlayerId, list: FriendList, version: nat)
    | AccountName(player: PlayerId)
    | CreditTask(player: PlayerId, relation: RelationId)
    | ClaimReward(invitee: PlayerId, inviter: PlayerId, relation: RelationId, code: string)
    | SendMail(source: SourceId, recipient: PlayerId)

  /** Every way a call can come back. Failed stands for a conflict, a transport
      error or a lost reply: the code never tells these apart. */
  datatype Reply =
    | Failed | NotFound | AlreadyExists
    | Done(version: nat)
    | RelationIs(relation: RelationId)
    | Minted(relation: RelationId)
    | SagaIs(saga: Saga, version: nat)
    | ListIs(list: FriendList, version: nat)
    | NameIs(name: string)
    | ClaimIs(claimed: bool)

  datatype Job = Job(owner: PlayerId, redeemer: PlayerId, code: string, mailer: bool)

  /** How the caller of advance turns its saga into an answer. */
  datatype Purpose = Establish(newly: bool) | AlreadyFriends | Reconcile

  datatype Outcome =
    | Error(failure: Failure)
    | Linked(relation: RelationId, newly: bool)
    | LimitReached
    | Reconciled

  datatype Edit = ReserveLow | ReserveHigh | ConsumeLow | ConsumeHigh | ReleaseLow | ReleaseHigh

  datatype After = NextStep | NextCredit(low: bool) | NextMail(side: MailSide) | StopHere | StopOrFail

  /** The calls of one attempt at a list edit; Create and Reread are getOrCreateFriendList. */
  datatype ListPhase = Read | Create | Reread | Replace(list: FriendList, listVersion: nat)

  datatype At =
    | Listing(edit: Edit, name: string, attempt: nat, phase: ListPhase)
    | NameRead(edit: Edit)
    | RelationCreate
    | RelationRead
    | Crediting(low: bool)
    | Claiming
    | Mailing(side: MailSide)
    | SagaWrite(next: Saga, after: After)

  datatype Run =
    | EntryRelation
    | EntryActiveSaga(relation: RelationId)
    | EntrySaga
    | EntryMint
    | EntryInsert(draft: Saga)
    | EntryReload
    | EntryReconcile
    | Advancing(at: At, saga: Saga, version: nat, steps: nat, purpose: Purpose)
    | Finished(outcome: Outcome)

  datatype Driver = Driver(job: Job, run: Run)

  function LowOf(a: PlayerId, b: PlayerId): PlayerId { if a < b then a else b }
  function HighOf(a: PlayerId, b: PlayerId): PlayerId { if a < b then b else a }

  function JobLink(j: Job): Link { Link(j.code, j.redeemer) }

  function NewSaga(j: Job, relation: RelationId): Saga {
    Saga(JobLink(j), j.owner, LowOf(j.owner, j.redeemer), HighOf(j.owner, j.redeemer), relation,
         Init, false, false, false, MailUnset, MailUnset, NoError)
  }

  function Fail(f: Failure): Run { Finished(Error(f)) }

  /** The opening checks of EstablishFriendship. */
  function Start(j: Job): Driver {
    Driver(j,
           if j.owner == 0 || j.redeemer == 0 then Fail(PlayerIdsRequired)
           else if j.owner == j.redeemer then Fail(CannotFriendSelf)
           else EntryRelation)
  }

  // ------------------------------------------------------------- list edits

  predicate OnLow(e: Edit) { e == ReserveLow || e == ConsumeLow || e == ReleaseLow }

  function Subject(g: Saga, e: Edit): PlayerId { if OnLow(e) then g.low else g.high }
  function Other(g: Saga, e: Edit): PlayerId { if OnLow(e) then g.high else g.low }

  function PlanFor(g: Saga, e: Edit, name: string, l: FriendList): Plan {
    match e
    case ReserveLow => PlanReserve(l, g.link, g.high)
    case ReserveHigh => PlanReserve(l, g.link, g.low)
    case ConsumeLow => PlanConsume(l, g.link, g.high, name, g.relation)
    case ConsumeHigh => PlanConsume(l, g.link, g.low, name, g.relation)
    case ReleaseLow => PlanRelease(l, g.link)
    case ReleaseHigh => PlanRelease(l, g.link)
  }

  predicate IsRelease(e: Edit) { e == ReleaseLow || e == ReleaseHigh }

  // -------------------------------------------------------- the advance loop

  /** Answer the caller of advance with this saga. */
  function Return(g: Saga, p: Purpose): Run {
    Finished(match p
             case Establish(newly) => if g.status == Aborted then LimitReached else Linked(g.relation, newly)
             case AlreadyFriends => Linked(g.relation, false)
             case Reconcile => Reconciled)
  }

  function WriteSaga(g: Saga, v: nat, n: nat, p: Purpose, next: Saga, after: After): Run {
    Advancing(SagaWrite(next, after), g, v, n, p)
  }

  function AfterCredits(j: Job, g: Saga, v: nat, n: nat, p: Purpose): Run {
    WriteSaga(g, v, n, p, g.(status := if j.mailer then FirstRewardChecked else Completed), NextStep)
  }

  function CreditFrom(j: Job, g: Saga, v: nat, n: nat, p: Purpose, low: bool): Run {
    if low && !g.lowCredited then Advancing(Crediting(true), g, v, n, p)
    else if !g.highCredited then Advancing(Crediting(false), g, v, n, p)
    else AfterCredits(j, g, v, n, p)
  }

  /** After checkFirstFriendReward returned nil on `g` with the flag now `claimed`. */
  function Checked(g: Saga, claimed: bool): Saga {
    if claimed then g.(claimed := true, inviterMail := MailPending, inviteeMail := MailPending,
                       status := RewardMailsCreated)
    else g.(claimed := false, inviterMail := MailSkipped, inviteeMail := MailSkipped, status := Completed)
  }

  predicate Settles(m: MailStatus) { m == MailApplied || m == MailSkipped }

  function MailFrom(g: Saga, v: nat, n: nat, p: Purpose, side: MailSide): Run {
    if side == ToInviter && !Settles(g.inviterMail) then Advancing(Mailing(ToInviter), g, v, n, p)
    else if !Settles(g.inviteeMail) then Advancing(Mailing(ToInvitee), g, v, n, p)
    else WriteSaga(g, v, n, p, g.(status := Completed), NextStep)
  }

  /** The top of loop iteration `n`. */
  function Enter(j: Job, g: Saga, v: nat, n: nat, p: Purpose): Run {
    if n >= MAX_SAGA_STEPS then Fail(NotConverged)
    else
      match g.status
      case Init => Advancing(Listing(ReserveLow, "", 0, Read), g, v, n, p)
      case LowReserved => Advancing(Listing(ReserveHigh, "", 0, Read), g, v, n, p)
      case BothReserved => Advancing(RelationCreate, g, v, n, p)
      case RelationActive => Advancing(NameRead(ConsumeLow), g, v, n, p)
      case ProjectionsApplied => WriteSaga(g, v, n, p, g.(status := TaskCrediting), NextStep)
      case TaskCrediting => CreditFrom(j, g, v, n, p, true)
      case FirstRewardChecked =>
        if g.claimed then WriteSaga(g, v, n, p, Checked(g, true), NextStep)
        else if g.inviterMail == MailSkipped && g.inviteeMail == MailSkipped
          then WriteSaga(g, v, n, p, Checked(g, false), NextStep)
        else Advancing(Claiming, g, v, n, p)
      case RewardMailsCreated =>
        if !j.mailer then Return(g, p) else MailFrom(g, v, n, p, ToInviter)
      case Releasing => Advancing(Listing(ReleaseLow, "", 0, Read), g, v, n, p)
      case Completed => Return(g, p)
      case Aborted => Return(g, p)
      case Unspecified => Fail(UnknownStatus)
  }

  /** A list edit came to an end with this answer. */
  function SettleEdit(g: Saga, v: nat, n: nat, p: Purpose, e: Edit, ok: bool): Run {
    match e
    case ReserveLow => WriteSaga(g, v, n, p, g.(status := if ok then LowReserved else Releasing), NextStep)
    case ReserveHigh => WriteSaga(g, v, n, p, g.(status := if ok then BothReserved else Releasing), NextStep)
    case ConsumeLow => Advancing(NameRead(ConsumeHigh), g, v, n, p)
    case ConsumeHigh => WriteSaga(g, v, n, p, g.(status := ProjectionsApplied), NextStep)
    case ReleaseLow => Advancing(Listing(ReleaseHigh, "", 0, Read), g, v, n, p)
    case ReleaseHigh => WriteSaga(g, v, n, p, g.(status := Aborted), NextStep)
  }

  /** A list edit failed: releaseBothSides drops the error, the others return it. */
  function FailEdit(g: Saga, v: nat, n: nat, p: Purpose, e: Edit): Run {
    if IsRelease(e) then SettleEdit(g, v, n, p, e, true) else Fail(ListFailed)
  }

  function Decide(
    g: Saga, v: nat, n: nat, p: Purpose, e: Edit, name: string, attempt: nat, l: FriendList, lv: nat): Run
  {
    match PlanFor(g, e, name, l)
    case Settled(ok) => SettleEdit(g, v, n, p, e, ok)
    case Write(_) => Advancing(Listing(e, name, attempt, Replace(l, lv)), g, v, n, p)
  }

  /** The saga after one credit or one mail was acknowledged. */
  function Credited(g: Saga, low: bool): Saga {
    (if low then g.(lowCredited := true) else g.(highCredited := true)).(lastError := NoError)
  }

  function Mailed(g: Saga, side: MailSide): Saga {
    (if side == ToInviter then g.(inviterMail := MailApplied) else g.(inviteeMail := MailApplied)).(lastError := NoError)
  }

  function Recipient(g: Saga, side: MailSide): PlayerId {
    if side == ToInviter then g.owner else g.link.redeemer
  }

  function AdvanceCall(at: At, g: Saga, v: nat): Call {
    match at
    case Listing(e, name, _, phase) =>
      (match phase
       case Read => GetList(Subject(g, e))
       case Create => InsertList(Subject(g, e))
       case Reread => GetList(Subject(g, e))
       case Replace(l, lv) =>
         var plan := PlanFor(g, e, name, l);
         if plan.Write? then UpdateList(Subject(g, e), plan.list, lv) else NoCall)
    case NameRead(e) => AccountName(Other(g, e))
    case RelationCreate => InsertRelation(g.low, g.high, g.relation)
    case RelationRead => GetRelation(g.low, g.high)
    case Crediting(low) => CreditTask(if low then g.low else g.high, g.relation)
    case Claiming => ClaimReward(g.link.redeemer, g.owner, g.relation, g.link.code)
    case Mailing(side) => SendMail(SourceId(g.link.redeemer, side), Recipient(g, side))
    case SagaWrite(next, _) => UpdateSaga(next, v)
  }

  /** The call the driver is waiting on. */
  function CallOf(d: Driver): Call {
    var j := d.job;
    match d.run
    case EntryRelation => GetRelation(LowOf(j.owner, j.redeemer), HighOf(j.owner, j.redeemer))
    case EntryActiveSaga(_) => GetSaga(JobLink(j))
    case EntrySaga => GetSaga(JobLink(j))
    case EntryMint => MintRelation(JobLink(j))
    case EntryInsert(g) => InsertSaga(g)
    case EntryReload => GetSaga(JobLink(j))
    case EntryReconcile => GetSaga(JobLink(j))
    case Advancing(at, g, v, _, _) => AdvanceCall(at, g, v)
    case Finished(_) => NoCall
  }

  function AfterSagaWrite(j: Job, next: Saga, v: nat, n: nat, p: Purpose, after: After): Run {
    match after
    case NextStep => Enter(j, next, v, n + 1, p)
    case NextCredit(low) => if low then CreditFrom(j, next, v, n, p, false) else AfterCredits(j, next, v, n, p)
    case NextMail(side) =>
      if side == ToInviter then MailFrom(next, v, n, p, ToInvitee)
      else WriteSaga(next, v, n, p, next.(status := Completed), NextStep)
    case StopHere => Return(next, p)
    case StopOrFail => Return(next, p)
  }

  function FeedList(
    g: Saga, v: nat, n: nat, p: Purpose, e: Edit, name: string, k: nat, phase: ListPhase, r: Reply): Run
  {
    match phase
    case Read =>
      if r.ListIs? then Decide(g, v, n, p, e, name, k, r.list, r.version)
      else if r.NotFound? && !IsRelease(e) then Advancing(Listing(e, name, k, Create), g, v, n, p)
      else if r.NotFound? then SettleEdit(g, v, n, p, e, true)
      else FailEdit(g, v, n, p, e)
    case Create =>
      if r.Done? then Decide(g, v, n, p, e, name, k, EMPTY_LIST, r.version)
      else if r.AlreadyExists? then Advancing(Listing(e, name, k, Reread), g, v, n, p)
      else FailEdit(g, v, n, p, e)
    case Reread =>
      if r.ListIs? then Decide(g, v, n, p, e, name, k, r.list, r.version)
      else FailEdit(g, v, n, p, e)
    case Replace(_, _) =>
      if r.Done? then SettleEdit(g, v, n, p, e, true)
      else if k + 1 < MAX_CAS_ATTEMPTS then Advancing(Listing(e, name, k + 1, Read), g, v, n, p)
      else FailEdit(g, v, n, p, e)
  }

  function FeedSagaWrite(j: Job, v: nat, n: nat, p: Purpose, next: Saga, after: After, r: Reply): Run {
    if r.Done? then AfterSagaWrite(j, next, r.version, n, p, after)
    else if after == NextStep || after == StopOrFail then Fail(SagaFailed)
    else Return(next, p)
  }

  function FeedAdvance(j: Job, at: At, g: Saga, v: nat, n: nat, p: Purpose, r: Reply): Run {
    match at
    case Listing(e, name, k, phase) => FeedList(g, v, n, p, e, name, k, phase, r)
    case NameRead(e) =>
      if r.NameIs? && r.name != "" then Advancing(Listing(e, r.name, 0, Read), g, v, n, p)
      else Fail(NoAccountName)
    case RelationCreate =>
      if r.Done? then WriteSaga(g, v, n, p, g.(status := RelationActive), NextStep)
      else if r.AlreadyExists? then Advancing(RelationRead, g, v, n, p)
      else Fail(RelationFailed)
    case RelationRead =>
      if r.RelationIs? then
        WriteSaga(g, v, n, p, g.(relation := r.relation, status := RelationActive), NextStep)
      else Fail(RelationFailed)
    case Crediting(low) =>
      if r.Done? then WriteSaga(g, v, n, p, Credited(g, low), NextCredit(low))
      else WriteSaga(g, v, n, p, g.(lastError := TaskCreditFailed), StopHere)
    case Claiming =>
      if r.ClaimIs? then WriteSaga(g, v, n, p, Checked(g.(lastError := NoError), r.claimed), NextStep)
      else WriteSaga(g, v, n, p, g.(lastError := FirstRewardCheckFailed), StopOrFail)
    case Mailing(side) =>
      if r.Done? then WriteSaga(g, v, n, p, Mailed(g, side), NextMail(side))
      else WriteSaga(g, v, n, p, g.(lastError := RewardMailFailed), StopHere)
    case SagaWrite(next, after) => FeedSagaWrite(j, v, n, p, next, after, r)
  }

  /** Where a reply takes the driver. */
  function Feed(d: Driver, r: Reply): Driver {
    var j := d.job;
    Driver(j,
           match d.run
           case EntryRelation =>
             if r.RelationIs? then EntryActiveSaga(r.relation)
             else if r.NotFound? then EntrySaga
             else Fail(RelationFailed)
           case EntryActiveSaga(relation) =>
             if r.SagaIs? then
               if r.saga.status != Completed then Enter(j, r.saga, r.version, 0, AlreadyFriends)
               else Finished(Linked(relation, false))
             else if r.NotFound? then Finished(Linked(relation, false))
             else Fail(SagaFailed)
           case EntrySaga =>
             if r.SagaIs? then Enter(j, r.saga, r.version, 0, Establish(r.saga.status != Completed))
             else if r.NotFound? then EntryMint
             else Fail(SagaFailed)
           case EntryMint =>
             if r.Minted? then EntryInsert(NewSaga(j, r.relation)) else Fail(RelationFailed)
           case EntryInsert(g) =>
             if r.Done? then Enter(j, g, r.version, 0, Establish(true))
             else if r.AlreadyExists? then EntryReload
             else Fail(SagaFailed)
           case EntryReload =>
             if r.SagaIs? then Enter(j, r.saga, r.version, 0, Establish(r.saga.status != Completed))
             else Fail(SagaFailed)
           case EntryReconcile =>
             if r.SagaIs? then
               if r.saga.status == Completed || r.saga.status == Aborted then Finished(Reconciled)
               else Enter(j, r.saga, r.version, 0, Reconcile)
             else if r.NotFound? then Finished(Reconciled)
             else Fail(SagaFailed)
           case Advancing(at, g, v, n, p) => FeedAdvance(j, at, g, v, n, p, r)
           case Finished(o) => Finished(o))
  }

  function FeedAll(d: Driver, rs: seq<Reply>): Driver {
    if rs == [] then d else Feed(FeedAll(d, rs[..|rs| - 1]), rs[|rs| - 1])
  }

  // ------------------------------------------------------------ convergence

  /** Position of a status on its path; every durable step raises it. */
  function Rank(s: Status): nat {
    match s
    case Unspecified => 0
    case Init => 0
    case LowReserved => 1
    case BothReserved => 2
    case RelationActive => 3
    case ProjectionsApplied => 4
    case TaskCrediting => 5
    case FirstRewardChecked => 6
    case RewardMailsCreated => 7
    case Completed => 8
    case Releasing => 2
    case Aborted => 3
  }

  /** Each call is made at its own status, and a durable step raises the rank. */
  predicate PacedAt(at: At, status: Status, n: nat) {
    match at
    case Listing(e, _, _, _) => EditStatus(e) == status
    case NameRead(e) => EditStatus(e) == status == RelationActive
    case RelationCreate => status == BothReserved
    case RelationRead => status == BothReserved
    case Crediting(_) => status == TaskCrediting
    case Claiming => status == FirstRewardChecked
    case Mailing(_) => status == RewardMailsCreated
    case SagaWrite(next, after) =>
      && (after == NextStep ==> n < Rank(next.status))
      && (after != NextStep ==> next.status == status)
      && (after.NextCredit? ==> status == TaskCrediting)
      && (after.NextMail? ==> status == RewardMailsCreated)
  }

  /** Each started iteration has raised the rank, which never exceeds eight. */
  predicate PacedRun(r: Run) {
    match r
    case Advancing(at, g, _, n, _) => n <= Rank(g.status) && PacedAt(at, g.status, n)
    case Finished(o) => o != Error(NotConverged)
    case _ => true
  }

  function EditStatus(e: Edit): Status {
    match e
    case ReserveLow => Init
    case ReserveHigh => LowReserved
    case ConsumeLow => RelationActive
    case ConsumeHigh => RelationActive
    case ReleaseLow => Releasing
    case ReleaseHigh => Releasing
  }

  lemma EnterPaced(j: Job, g: Saga, v: nat, n: nat, p: Purpose)
    requires n <= Rank(g.status)
    ensures PacedRun(Enter(j, g, v, n, p))
  {
    match g.status
    case TaskCrediting => CreditPaced(j, g, v, n, p, true);
    case RewardMailsCreated => MailPaced(g, v, n, p, ToInviter);
    case _ =>
  }

  lemma CreditPaced(j: Job, g: Saga, v: nat, n: nat, p: Purpose, low: bool)
    requires n <= Rank(g.status) && g.status == TaskCrediting
    ensures PacedRun(CreditFrom(j, g, v, n, p, low)) && PacedRun(AfterCredits(j, g, v, n, p))
  {}

  lemma MailPaced(g: Saga, v: nat, n: nat, p: Purpose, side: MailSide)
    requires n <= Rank(g.status) && g.status == RewardMailsCreated
    ensures PacedRun(MailFrom(g, v, n, p, side))
  {}

  lemma EditPaced(g: Saga, v: nat, n: nat, p: Purpose, e: Edit, ok: bool)
    requires n <= Rank(g.status) && EditStatus(e) == g.status
    ensures PacedRun(SettleEdit(g, v, n, p, e, ok)) && PacedRun(FailEdit(g, v, n, p, e))
  {
    match e {
      case ReserveLow => case ReserveHigh => case ConsumeLow =>
      case ConsumeHigh => case ReleaseLow => case ReleaseHigh =>
    }
  }

  lemma DecidePaced(
    g: Saga, v: nat, n: nat, p: Purpose, e: Edit, name: string, k: nat, l: FriendList, lv: nat)
    requires n <= Rank(g.status) && EditStatus(e) == g.status
    ensures PacedRun(Decide(g, v, n, p, e, name, k, l, lv))
  {
    match PlanFor(g, e, name, l)
    case Settled(ok) => EditPaced(g, v, n, p, e, ok);
    case Write(_) =>
  }

  lemma FeedListPaced(
    g: Saga, v: nat, n: nat, p: Purpose, e: Edit, name: string, k: nat, phase: ListPhase, r: Reply)
    requires n <= Rank(g.status) && EditStatus(e) == g.status
    ensures PacedRun(FeedList(g, v, n, p, e, name, k, phase, r))
  {
    EditPaced(g, v, n, p, e, true);
    if r.ListIs? { DecidePaced(g, v, n, p, e, name, k, r.list, r.version); }
    if r.Done? { DecidePaced(g, v, n, p, e, name, k, EMPTY_LIST, r.version); }
  }

  lemma FeedSagaWritePaced(j: Job, g: Saga, v: nat, n: nat, p: Purpose, next: Saga, after: After, r: Reply)
    requires n <= Rank(g.status) && PacedAt(SagaWrite(next, after), g.status, n)
    ensures PacedRun(FeedSagaWrite(j, v, n, p, next, after, r))
  {
    hide Enter, CreditFrom, AfterCredits, MailFrom;
    if r.Done? {
      match after
      case NextStep => EnterPaced(j, next, r.version, n + 1, p);
      case NextCredit(low) => CreditPaced(j, next, r.version, n, p, false);
      case NextMail(side) => MailPaced(next, r.version, n, p, ToInvitee);
      case _ =>
    }
  }

  lemma FeedAdvancePaced(j: Job, at: At, g: Saga, v: nat, n: nat, p: Purpose, r: Reply)
    requires n <= Rank(g.status) && PacedAt(at, g.status, n)
    ensures PacedRun(FeedAdvance(j, at, g, v, n, p, r))
  {
    match at
    case Listing(e, name, k, phase) => FeedListPaced(g, v, n, p, e, name, k, phase, r);
    case SagaWrite(next, after) => FeedSagaWritePaced(j, g, v, n, p, next, after, r);
    case _ =>
  }

  lemma FeedPaced(d: Driver, r: Reply)
    requires PacedRun(d.run)
    ensures PacedRun(Feed(d, r).run)
  {
    match d.run
    case Advancing(at, g, v, n, p) => FeedAdvancePaced(d.job, at, g, v, n, p, r);
    case EntryInsert(g) => if r.Done? { EnterPaced(d.job, g, r.version, 0, Establish(true)); }
    case _ =>
      if r.SagaIs? {
        EnterPaced(d.job, r.saga, r.version, 0, AlreadyFriends);
        EnterPaced(d.job, r.saga, r.version, 0, Establish(r.saga.status != Completed));
        EnterPaced(d.job, r.saga, r.version, 0, Reconcile);
      }
  }

  /** Whatever stores and collaborators answer, no driver ever leaves the advance
      loop by its "did not converge" exit, and no started iteration is numbered above
      eight: the 32-step bound is never the reason a call stops. */
  lemma {:induction false} AlwaysConverges(j: Job, rs: seq<Reply>)
    ensures forall start :: start == Start(j) || start == Driver(j, EntryReconcile) ==>
      var d := FeedAll(start, rs);
      && d.run != Finished(Error(NotConverged))
      && (d.run.Advancing? ==> d.run.steps <= 8 < MAX_SAGA_STEPS)
  {
    forall start | start == Start(j) || start == Driver(j, EntryReconcile)
      ensures PacedRun(FeedAll(start, rs).run)
    {
      AllPaced(start, rs);
    }
  }

  lemma {:induction false} AllPaced(start: Driver, rs: seq<Reply>)
    requires PacedRun(start.run)
    ensures PacedRun(FeedAll(start, rs).run)
  {
    if rs != [] {
      AllPaced(start, rs[..|rs| - 1]);
      FeedPaced(FeedAll(start, rs[..|rs| - 1]), rs[|rs| - 1]);
    }
  }
}
