/**
 The production owner workflow as a step system: one process at a time, a server, a network that may
 delay or lose anything, and three durable files. A step is one statement of the source that can be
 separated from the next by a crash: a read, a send, a durable write. Every step is a function on
 states; an absent result means that the step is not enabled there.
 */
module OwnerWorkflow {
  import opened Clock
  import opened OAuthServer
  import opened Options
  import opened ReplayWindow

  type Key = nat
  type Payload = nat
  type ResumeId = nat

  const ACCESS_REVOCATION_CUTOFF: Time := 55 * MINUTE
  const REFRESH_REVOCATION_CUTOFF: Time := 29 * DAY
  const MAX_REVOCATION_ROUNDS := 2
  const MAX_BASELINE_RESUMES := 2
  const MAX_LISTED_RESUMES := MAX_BASELINE_RESUMES + 1

  // ---------------------------------------------------------------- durable files

  /** The create request, written before its first send. */
  datatype Intent = Intent(key: Key, payload: Payload, baseline: set<ResumeId>, serverTime: Time)

  /** The revocation authority of the run that completed. */
  datatype Journal = Journal(access: Token, refresh: Token, confirmedAt: Time, accessUntil: Time, refreshUntil: Time)

  /** The control root. The sentinel keeps only the confirmation time. */
  datatype Disk = Disk(intent: Option<Intent>, journal: Option<Journal>, sentinel: Option<Time>)

  /** What a durable write reports, and whether it took effect. */
  datatype Io = Done | Failed | FailedAfterEffect {
    predicate Took() { !Failed? }
  }

  // ---------------------------------------------------------------- server and network

  datatype CreateMessage = CreateMessage(key: Key, payload: Payload, sentAt: Time)
  datatype Record = Record(at: Time, payload: Payload, id: ResumeId)
  datatype Acceptance = Acceptance(key: Key, payload: Payload, id: ResumeId, at: Time)
  datatype Verdict = Accept(id: ResumeId) | Invalid | Refuse
  datatype Reply = Created(id: ResumeId) | Rejected | Unclear

  /** The resume server: listed resumes, idempotency records, and every create it ever accepted from a runner. */
  datatype Account = Account(resumes: set<ResumeId>, records: map<Key, Record>, accepted: seq<Acceptance>) {
    /** A live record of the same key answers for it; otherwise the request is decided afresh. */
    function Create(m: CreateMessage, now: Time, verdict: Verdict): (Account, Reply)
    {
      if m.key in records && now < records[m.key].at + IDEMPOTENCY_TTL then
        (this, if records[m.key].payload == m.payload then Created(records[m.key].id) else Unclear)
      else
        match verdict
        case Accept(id) =>
          (Account(resumes + {id}, records[m.key := Record(now, m.payload, id)],
                   accepted + [Acceptance(m.key, m.payload, id, now)]),
           Created(id))
        case Invalid => (this, Rejected)
        case Refuse => (this, Unclear)
    }
  }

  /** What the server answers: a live record for its own request only, and otherwise the verdict. */
  lemma CreateAnswers(account: Account, m: CreateMessage, now: Time, verdict: Verdict)
    ensures var (after, reply) := account.Create(m, now, verdict);
            if m.key in account.records && now < account.records[m.key].at + 86_400_000_000_000 then
              && after == account
              && reply == if account.records[m.key].payload == m.payload then Created(account.records[m.key].id)
                          else Unclear
            else
              && (verdict.Invalid? ==> after == account && reply == Rejected)
              && (verdict.Refuse? ==> after == account && reply == Unclear)
              && (verdict.Accept? ==>
                    && reply == Created(verdict.id) && after.resumes == account.resumes + {verdict.id}
                    && after.records == account.records[m.key := Record(now, m.payload, verdict.id)]
                    && after.accepted == account.accepted + [Acceptance(m.key, m.payload, verdict.id, now)])
  {
  }

  // ---------------------------------------------------------------- the process

  datatype GrantSnapshot = GrantSnapshot(access: Token, refresh: Token, first: Time, latest: Time)

  /** A run's grant: as captured before any create, and as the SDK holds it now. */
  datatype Run = Run(family: Family, captured: GrantSnapshot, current: GrantSnapshot)

  datatype Task =
    | Ready(found: Option<Intent>)
    | Reading(found: Option<Intent>, listing: set<ResumeId>, date: Time, readAt: Time)
    | Stamped(found: Option<Intent>, listing: set<ResumeId>, date: Time, observedAt: Time)
    | SendReady(intent: Intent, deadline: Time, first: bool)
    | Awaiting(intent: Intent, uid: nat, first: bool)
    | Refused(intent: Intent)
    | ByReads(intent: Intent)
    | Bound(intent: Intent)
    | Verified(intent: Intent, confirmedAt: Time)

  datatype Stage =
    | Persist | EnsureSentinel | DropIntent | Inspect | SdkRevoke | SdkProbe
    | Revoking(round: nat) | Probing(round: nat) | Refreshing(round: nat) | Replacing(round: nat, successor: Journal)
    | Reload | FinishSentinel | FinishJournal | FinishIntent

  /** `session` is the SDK's session of a completing run, with the tokens it now holds; recovery has none. */
  datatype Process =
    | Idle
    | Connecting(found: Option<Intent>)
    | Running(run: Run, task: Task)
    | Closing(journal: Journal, stage: Stage, session: Option<Run>)
    | Cleaning(run: Run)
    | Exited(family: Family, revokeSent: bool, revokeTook: bool, existsFailed: bool)

  /**
   The whole system. `live` and `completing` are history: the intent whose key may have been sent, and the
   family of the run that first journaled. No step's outcome depends on them.
   */
  datatype State = State(
    now: Time, oauth: OAuth, account: Account, net: map<nat, CreateMessage>, replies: map<nat, Reply>, nextUid: nat,
    keys: set<Key>, disk: Disk, process: Process, live: Option<Intent>, completing: Option<Family>)

  function Initial(now: Time, oauth: OAuth, resumes: set<ResumeId>): State {
    State(now, oauth, Account(resumes, map[], []), map[], map[], 0, {}, Disk(None, None, None), Idle, None, None)
  }

  // ---------------------------------------------------------------- pure parts of the source

  /** Every baseline resume is listed, and at most one more. */
  predicate SplitBaseline(listing: set<ResumeId>, intent: Intent) {
    |listing| <= MAX_LISTED_RESUMES && intent.baseline <= listing && |listing - intent.baseline| <= 1
  }

  function Earlier(a: Time, b: Time): Time { if a < b then a else b }

  function JournalFor(g: GrantSnapshot, confirmedAt: Time): Journal {
    var refreshUntil := g.first + REFRESH_REVOCATION_CUTOFF;
    Journal(g.access, g.refresh, confirmedAt, Earlier(g.latest + ACCESS_REVOCATION_CUTOFF, refreshUntil), refreshUntil)
  }

  /** The journal after a rotation, under the old refresh cutoff. */
  function Successor(j: Journal, access: Token, refresh: Token, date: Time): Journal {
    j.(access := access, refresh := refresh, accessUntil := Earlier(date + ACCESS_REVOCATION_CUTOFF, j.refreshUntil))
  }

  // ---------------------------------------------------------------- steps

  datatype Action =
    // The environment.
    | Tick(elapsed: Time)
    | Crash
    | OwnerEdits(resumes: set<ResumeId>)
    | OwnerRevokes(revokedFamily: Family)
    | Sweep(gone: set<Token>)
    | Deliver(uid: nat, verdict: Verdict)
    | DropMessage(uid: nat)
    // Start and create.
    | Start
    | Connect(newFamily: Family, access: Token, refresh: Token, date: Time)
    | SdkRefresh(access: Token, refresh: Token, date: Time, received: bool)
    | ReadAccount(date: Time)
    | Stamp
    | PersistIntent(key: Key, payload: Payload, io: Io)
    | PrepareReplay
    | Send
    | Receive
    | GiveUp
    | RemoveRefused(io: Io)
    | AcceptListed
    | VerifyFinal(date: Time)
    | Fail
    // Completion and recovery.
    | PrepareJournal(useCurrent: bool)
    | Write(io: Io)
    | InspectTarget
    | RevokeCall(took: bool)
    | SdkProof(date: Time, observed: bool)
    | Probe(date: Time)
    | Refresh(access: Token, refresh: Token, date: Time, received: bool)
    | LoadAgain
    | Cleanup(existsFails: bool, took: bool)
    | Leave

  /** New tokens that the server could issue now. */
  predicate Fresh(s: State, access: Token, refresh: Token) {
    access !in s.oauth.tokens && refresh !in s.oauth.tokens && access != refresh
  }

  function Step(t: Timing, s: State, a: Action): Option<State> {
    if a.Deliver? then DeliverStep(t, s, a.uid, a.verdict)
    else if a.Tick? || a.Crash? || a.OwnerEdits? || a.OwnerRevokes? || a.Sweep? || a.DropMessage?
        then EnvironmentStep(s, a)
    else ProcessStep(t, s, a)
  }

  /** Time, crashes, the owner and the network act on their own, whatever the process is doing. */
  function EnvironmentStep(s: State, a: Action): Option<State> {
    match a
    case Tick(elapsed) => if 0 <= elapsed then Some(s.(now := s.now + elapsed)) else None
    case Crash => Some(s.(process := Idle))
    case OwnerEdits(resumes) => Some(s.(account := s.account.(resumes := resumes)))
    case OwnerRevokes(f) => if f in s.oauth.families then Some(s.(oauth := s.oauth.RevokeFamily(f))) else None
    case Sweep(gone) =>
      if forall t <- gone :: s.oauth.Sweepable(t, s.now) then Some(s.(oauth := s.oauth.Sweep(gone))) else None
    case DropMessage(uid) => Some(s.(net := s.net - {uid}))
    case _ => None
  }

  function ProcessStep(t: Timing, s: State, a: Action): Option<State> {
    match s.process
    case Idle => if a.Start? then StartStep(s) else None
    case Connecting(_) =>
      if a.Connect? then ConnectStep(t, s, a.newFamily, a.access, a.refresh, a.date) else None
    case Running(run, task) => if a.Receive? then ReceiveStep(s, run, task) else RunningStep(t, s, run, task, a)
    case Closing(journal, stage, session) => ClosingStep(t, s, journal, stage, session, a)
    case Cleaning(_) => if a.Cleanup? then CleanupStep(s, a.existsFails, a.took) else None
    case Exited(_, _, _, _) => if a.Leave? then Some(s.(process := Idle)) else None
  }

  /** The server takes a create message off the network, no later than its delay bound. */
  function DeliverStep(t: Timing, s: State, uid: nat, verdict: Verdict): Option<State> {
    if uid !in s.net || s.now > s.net[uid].sentAt + t.delay then None
    else if verdict.Accept? && verdict.id in s.account.resumes then None
    else
      var (account, reply) := s.account.Create(s.net[uid], s.now, verdict);
      Some(s.(account := account, net := s.net - {uid}, replies := s.replies[uid := reply]))
  }

  /** Under the lock: a journal permits only recovery, a sentinel stops the run, an intent is reconciled. */
  function StartStep(s: State): Option<State> {
    if s.disk.journal.Some? then Some(s.(process := Closing(s.disk.journal.value, EnsureSentinel, None)))
    else if s.disk.sentinel.Some? then Some(s)
    else Some(s.(process := Connecting(s.disk.intent)))
  }

  /** The one OAuth grant of this process, captured with its dates before any create. */
  function ConnectStep(t: Timing, s: State, f: Family, access: Token, refresh: Token, date: Time): Option<State> {
    if !s.process.Connecting? || f in s.oauth.families || !Fresh(s, access, refresh) || !Dates(t, s.now, date) then None
    else
      var g := GrantSnapshot(access, refresh, date, date);
      Some(s.(oauth := s.oauth.Grant(f, access, refresh, s.now),
              process := Running(Run(f, g, g), Ready(s.process.found))))
  }

  function RunningStep(t: Timing, s: State, run: Run, task: Task, a: Action): Option<State>
  {
    match a
    case Fail => Some(s.(process := Cleaning(run)))
    case SdkRefresh(access, refresh, date, received) => SdkRefreshStep(t, s, run, access, refresh, date, received)
    case ReadAccount(date) => ReadAccountStep(t, s, run, task, date)
    case Stamp =>
      if task.Reading? && task.date <= s.now <= task.readAt + t.latency
      then Some(s.(process := Running(run, Stamped(task.found, task.listing, task.date, s.now + t.offset))))
      else None
    case PersistIntent(key, payload, io) => PersistIntentStep(s, run, task, key, payload, io)
    case PrepareReplay => PrepareReplayStep(s, run, task)
    case Send => SendStep(t, s, run, task)
    case GiveUp =>
      if !task.Awaiting? then None
      else Some(s.(process := if task.first then Running(run, ByReads(task.intent)) else Cleaning(run)))
    case RemoveRefused(io) =>
      if !task.Refused? then None
      else Some(s.(disk := if io.Took() then s.disk.(intent := None) else s.disk,
                   live := if io.Took() then None else s.live, process := Cleaning(run)))
    case AcceptListed => AcceptListedStep(s, run, task)
    case VerifyFinal(date) =>
      if task.Bound? && Dates(t, s.now, date)
      then Some(s.(process := Running(run, Verified(task.intent, date)))) else None
    case PrepareJournal(useCurrent) => PrepareJournalStep(s, run, task, useCurrent)
    case _ => None
  }

  /** The same process with the tokens that its SDK session now holds. */
  function WithRun(p: Process, run: Run): Process {
    match p
    case Running(_, task) => Running(run, task)
    case Closing(journal, stage, Some(_)) => Closing(journal, stage, Some(run))
    case _ => p
  }

  /** The SDK may refresh its own token with any request; a lost answer leaves it with a superseded pair. */
  function SdkRefreshStep(t: Timing, s: State, run: Run, access: Token, refresh: Token, date: Time,
          received: bool): Option<State>
  {
    if !Fresh(s, access, refresh) || !Dates(t, s.now, date) then None
    else
      var (oauth, result) := s.oauth.RefreshWith(run.current.refresh, access, refresh, s.now);
      var current := if result.Rotated? && received
                     then GrantSnapshot(access, refresh, run.current.first, date) else run.current;
      Some(s.(oauth := oauth, process := WithRun(s.process, run.(current := current))))
  }

  /** One dated listing: the re-read of a fresh run, the first read of a reconciling one. */
  function ReadAccountStep(t: Timing, s: State, run: Run, task: Task, date: Time): Option<State> {
    if !task.Ready? || !Dates(t, s.now, date) then None
    else if task.found.None? && !(0 < |s.account.resumes| <= MAX_BASELINE_RESUMES) then None
    else if task.found.Some? && !SplitBaseline(s.account.resumes, task.found.value) then None
    else Some(s.(process := Running(run, Reading(task.found, s.account.resumes, date, s.now))))
  }

  /** A fresh intent is created exclusively, under a key never used before. */
  function PersistIntentStep(s: State, run: Run, task: Task, key: Key, payload: Payload, io: Io): Option<State> {
    if !task.Stamped? || task.found.Some? || key in s.keys then None
    else
      var intent := Intent(key, payload, task.listing, task.date);
      var took := io.Took() && s.disk.intent.None?;
      Some(s.(keys := s.keys + {key},
              disk := if took then s.disk.(intent := Some(intent)) else s.disk,
              live := if took then Some(intent) else s.live,
              process := if took && io.Done?
                         then Running(run, SendReady(intent, task.observedAt + CREATE_SEND_WINDOW, true))
                         else Cleaning(run)))
  }

  /** A reconciling run that lists no new resume may resend, inside the replay window. */
  function PrepareReplayStep(s: State, run: Run, task: Task): Option<State> {
    if !task.Stamped? || task.found.None? || task.listing - task.found.value.baseline != {} then None
    else
      match ReplayDeadline(task.found.value.serverTime, Some(task.date), task.observedAt)
      case None => None
      case Some(deadline) => Some(s.(process := Running(run, SendReady(task.found.value, deadline, false))))
  }

  /** The bound key and payload go out once, before the deadline. */
  function SendStep(t: Timing, s: State, run: Run, task: Task): Option<State> {
    if !task.SendReady? || !(s.now + t.offset < task.deadline) then None
    else
      Some(s.(net := s.net[s.nextUid := CreateMessage(task.intent.key, task.intent.payload, s.now)],
              nextUid := s.nextUid + 1,
              process := Running(run, Awaiting(task.intent, s.nextUid, task.first))))
  }

  /** Only a validation error on the first send of a fresh intent proves that nothing was accepted. */
  function ReceiveStep(s: State, run: Run, task: Task): Option<State> {
    if !task.Awaiting? || task.uid !in s.replies then None
    else
      match s.replies[task.uid]
      case Created(id) =>
        Some(s.(process := if id in task.intent.baseline then Cleaning(run) else Running(run, Bound(task.intent))))
      case Rejected =>
        Some(s.(process := if task.first then Running(run, Refused(task.intent)) else Cleaning(run)))
      case Unclear =>
        Some(s.(process := if task.first then Running(run, ByReads(task.intent)) else Cleaning(run)))
  }

  /** Exactly one new listed resume, read back as the exact target, settles the create without a send. */
  function AcceptListedStep(s: State, run: Run, task: Task): Option<State> {
    match task
    case Stamped(Some(intent), listing, _, _) =>
      if |listing - intent.baseline| == 1 then Some(s.(process := Running(run, Bound(intent)))) else None
    case ByReads(intent) =>
      if SplitBaseline(s.account.resumes, intent) && |s.account.resumes - intent.baseline| == 1
      then Some(s.(process := Running(run, Bound(intent)))) else None
    case _ => None
  }

  /** Completion journals the current grant, or the captured one when the current cannot be read. */
  function PrepareJournalStep(s: State, run: Run, task: Task, useCurrent: bool): Option<State> {
    if !task.Verified? then None
    else
      var journal := JournalFor(if useCurrent then run.current else run.captured, task.confirmedAt);
      Some(s.(process := Closing(journal, Persist, Some(run))))
  }

  /** A closing step that returns an error: nothing more is done in this process. */
  function Stop(s: State, journal: Journal): State {
    var family := if journal.refresh in s.oauth.tokens then s.oauth.tokens[journal.refresh].family else 0;
    s.(process := Exited(family, false, false, false))
  }

  /** The stages up to the request whose denial is the proof. */
  predicate SdkRequests(stage: Stage) {
    || stage.Persist? || stage.EnsureSentinel? || stage.DropIntent?
    || stage.Inspect? || stage.SdkRevoke? || stage.SdkProbe?
  }

  function ClosingStep(t: Timing, s: State, j: Journal, stage: Stage, session: Option<Run>, a: Action): Option<State>
  {
    match a
    case Fail => Some(Stop(s, j))
    case Write(io) => WriteStep(s, j, stage, session, io)
    case SdkRefresh(access, refresh, date, received) =>
      if session.Some? && SdkRequests(stage)
      then SdkRefreshStep(t, s, session.value, access, refresh, date, received) else None
    case InspectTarget => if stage.Inspect? then Some(s.(process := Closing(j, SdkRevoke, session))) else None
    case RevokeCall(took) =>
      if stage.SdkRevoke? || stage.Revoking? then
        Some(s.(oauth := if took then s.oauth.Revoke(j.refresh) else s.oauth,
                process := Closing(j, if stage.SdkRevoke? then SdkProbe else Probing(stage.round), session)))
      else None
    case SdkProof(date, observed) => SdkProofStep(t, s, j, stage, session, date, observed)
    case Probe(date) => ProbeStep(t, s, j, stage, session, date)
    case Refresh(access, refresh, date, received) =>
      RefreshStep(t, s, j, stage, session, access, refresh, date, received)
    case LoadAgain =>
      if stage.Reload? && s.disk.journal.Some?
      then Some(s.(process := Closing(s.disk.journal.value, FinishSentinel, session))) else None
    case _ => None
  }

  /** The durable writes of completion and recovery, in the order in which their stages follow. */
  function WriteStep(s: State, j: Journal, stage: Stage, session: Option<Run>, io: Io): Option<State> {
    match stage
    case Persist =>
      // Exclusive: an existing journal is never replaced by a new grant.
      var took := io.Took() && s.disk.journal.None?;
      var s' := s.(disk := if took then s.disk.(journal := Some(j)) else s.disk,
                   completing := if took && j.refresh in s.oauth.tokens
                                 then Some(s.oauth.tokens[j.refresh].family) else s.completing);
      Some(if took && io.Done? then s'.(process := Closing(j, EnsureSentinel, session)) else Stop(s', j))
    case EnsureSentinel => Some(EnsureSentinelWrite(s, j, DropIntent, session, io))
    case DropIntent =>
      Some(RemoveIntentWrite(s, j, Closing(j, if session.None? then Revoking(0) else Inspect, session), io))
    case Replacing(round, successor) =>
      var s' := s.(disk := if io.Took() then s.disk.(journal := Some(successor)) else s.disk);
      Some(if io.Done? && round + 1 < MAX_REVOCATION_ROUNDS
           then s'.(process := Closing(successor, Revoking(round + 1), session))
           else Stop(s', j))
    case FinishSentinel => Some(EnsureSentinelWrite(s, j, FinishJournal, session, io))
    case FinishJournal =>
      var s' := s.(disk := if io.Took() then s.disk.(journal := None) else s.disk);
      Some(if io.Done? then s'.(process := Closing(j, FinishIntent, session)) else Stop(s', j))
    case FinishIntent => Some(RemoveIntentWrite(s, j, Idle, io))
    case _ => None
  }

  /** An existing sentinel must match the journal; a missing one is created from it. */
  function EnsureSentinelWrite(s: State, j: Journal, next: Stage, session: Option<Run>, io: Io): State {
    if s.disk.sentinel.Some? then
      if s.disk.sentinel.value == j.confirmedAt then s.(process := Closing(j, next, session)) else Stop(s, j)
    else
      var s' := s.(disk := if io.Took() then s.disk.(sentinel := Some(j.confirmedAt)) else s.disk);
      if io.Done? then s'.(process := Closing(j, next, session)) else Stop(s', j)
  }

  function RemoveIntentWrite(s: State, j: Journal, next: Process, io: Io): State {
    var s' := s.(disk := if io.Took() then s.disk.(intent := None) else s.disk);
    if io.Done? then s'.(process := next) else Stop(s', j)
  }

  /** The next SDK request was denied in time with the journaled token, and reauthorization was refused. */
  function SdkProofStep(t: Timing, s: State, j: Journal, stage: Stage, session: Option<Run>, date: Time,
          observed: bool): Option<State>
  {
    if !stage.SdkProbe? || !Dates(t, s.now, date) then None
    else
      var proof := observed && !s.oauth.Accepts(j.access, s.now) && date < j.accessUntil;
      Some(s.(process := Closing(j, if proof then FinishSentinel else Revoking(0), session)))
  }

  /** A timely 401 is the proof; any other timely answer, or a late one, settles nothing; in between, refresh. */
  function ProbeStep(t: Timing, s: State, j: Journal, stage: Stage, session: Option<Run>, date: Time): Option<State> {
    if !stage.Probing? || !Dates(t, s.now, date) then None
    else if date < j.accessUntil && !s.oauth.Accepts(j.access, s.now) then
      Some(s.(process := Closing(j, Reload, session)))
    else if date < j.accessUntil || j.refreshUntil <= date then Some(Stop(s, j))
    else Some(s.(process := Closing(j, Refreshing(stage.round), session)))
  }

  /** A timely invalid_grant is the proof; a rotation is journaled before the successor is revoked. */
  function RefreshStep(t: Timing, s: State, j: Journal, stage: Stage, session: Option<Run>, access: Token,
          refresh: Token, date: Time, received: bool): Option<State>
  {
    if !stage.Refreshing? || !Fresh(s, access, refresh) || !Dates(t, s.now, date) then None
    else
      var (oauth, result) := s.oauth.RefreshWith(j.refresh, access, refresh, s.now);
      var s' := s.(oauth := oauth);
      if !received || j.refreshUntil <= date then Some(Stop(s', j))
      else if result.InvalidGrant? then Some(s'.(process := Closing(j, Reload, session)))
      else Some(s'.(process := Closing(j, Replacing(stage.round, Successor(j, access, refresh, date)), session)))
  }

  /** The deferred cleanup of a failed run: revoke, unless an intent is present or its presence is unknown. */
  function CleanupStep(s: State, existsFails: bool, took: bool): Option<State>
  {
    if !s.process.Cleaning? then None
    else
      var run := s.process.run;
      if existsFails then Some(s.(process := Exited(run.family, false, false, true)))
      else if s.disk.intent.Some? then Some(s.(process := Exited(run.family, false, false, false)))
      else Some(s.(oauth := if took then s.oauth.Revoke(run.captured.refresh) else s.oauth,
                   process := Exited(run.family, true, took, false)))
  }

  // ---------------------------------------------------------------- what the steps around the run mean

  /** Whatever the process is doing, it may crash, time passes, the owner acts, and the network loses messages. */
  lemma EnvironmentIsFree(t: Timing, s: State, elapsed: Time, resumes: set<ResumeId>, f: Family, token: Token, uid: nat)
    ensures Step(t, s, Crash) == Some(s.(process := Idle))
    ensures elapsed >= 0 ==> Step(t, s, Tick(elapsed)) == Some(s.(now := s.now + elapsed))
    ensures Step(t, s, OwnerEdits(resumes)) == Some(s.(account := s.account.(resumes := resumes)))
    ensures Step(t, s, DropMessage(uid)) == Some(s.(net := s.net - {uid}))
    ensures f in s.oauth.families ==>
              && Step(t, s, OwnerRevokes(f)).Some? && Step(t, s, OwnerRevokes(f)).value.oauth.Revoked(f)
              && Step(t, s, OwnerRevokes(f)).value == s.(oauth := Step(t, s, OwnerRevokes(f)).value.oauth)
    ensures s.oauth.Known(token) && s.oauth.Sweepable(token, s.now) ==>
              && Step(t, s, Action.Sweep({token})).Some?
              && !Step(t, s, Action.Sweep({token})).value.oauth.Known(token)
  {
    var _ := Step(t, s, Action.Sweep({token}));
  }

  /** The session of a process that may still send a request through the SDK. */
  function SessionOf(p: Process): Option<Run> {
    match p
    case Running(run, _) => Some(run)
    case Closing(_, Persist, session) => session
    case Closing(_, EnsureSentinel, session) => session
    case Closing(_, DropIntent, session) => session
    case Closing(_, Inspect, session) => session
    case Closing(_, SdkRevoke, session) => session
    case Closing(_, SdkProbe, session) => session
    case _ => None
  }

  /**
   The SDK may refresh with any request of a running process, and with those of a completing one up to the request
   whose denial is the proof. Only an answer that is received changes what the session holds, and never the pair
   that was captured, nor the date of the first token.
   */
  lemma SdkSessionRefreshes(t: Timing, s: State, access: Token, refresh: Token, date: Time, received: bool)
    ensures var next := Step(t, s, SdkRefresh(access, refresh, date, received));
            && (next.Some? <==> SessionOf(s.process).Some? && access != refresh && access !in s.oauth.tokens
                                && refresh !in s.oauth.tokens && Dates(t, s.now, date))
            && (next.Some? ==>
                  var run := SessionOf(s.process).value;
                  var (oauth, answer) := s.oauth.RefreshWith(run.current.refresh, access, refresh, s.now);
                  var held := if answer.Rotated? && received
                              then GrantSnapshot(access, refresh, run.current.first, date) else run.current;
                  && next.value == s.(oauth := oauth, process := next.value.process)
                  && SessionOf(next.value.process) == Some(Run(run.family, run.captured, held))
                  && (s.process.Running? ==>
                        next.value.process.Running? && next.value.process.task == s.process.task)
                  && (s.process.Closing? ==>
                        && next.value.process.Closing? && next.value.process.journal == s.process.journal
                        && next.value.process.stage == s.process.stage))
  {
    hide OAuth.RefreshWith;
  }

  /**
   The journal of a successor names the new pair. Its access cutoff is the earlier one of the refresh cutoff and
   55 minutes after the rotation, so that it lies before the end of the new access token; nothing else changes.
   */
  lemma SuccessorMeans(j: Journal, access: Token, refresh: Token, date: Time)
    ensures var next := Successor(j, access, refresh, date);
            && next.access == access && next.refresh == refresh
            && next.refreshUntil == j.refreshUntil && next.confirmedAt == j.confirmedAt
            && next.accessUntil <= date + 3_300_000_000_000 && next.accessUntil <= j.refreshUntil
            && next.accessUntil in {date + 3_300_000_000_000, j.refreshUntil}
            && next.accessUntil < date + ACCESS_TOKEN_TTL
  {
  }

  // ---------------------------------------------------------------- runs

  /** The states before and after each action of a run, all of whose steps are enabled. */
  ghost predicate IsTrace(t: Timing, states: seq<State>, actions: seq<Action>) {
    && |states| == |actions| + 1
    && forall i :: 0 <= i < |actions| ==> Step(t, states[i], actions[i]) == Some(states[i + 1])
  }

  ghost predicate Starts(s: State) {
    exists now, oauth: OAuth, resumes :: oauth.Valid() && oauth.SweptInTime(now) && s == Initial(now, oauth, resumes)
  }

  /** Some run from an empty control root ends here. */
  ghost predicate Reachable(t: Timing, s: State) {
    exists states, actions :: IsTrace(t, states, actions) && Starts(states[0]) && states[|actions|] == s
  }
}
