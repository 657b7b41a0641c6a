/** What every reachable state of the owner workflow satisfies. */
module OwnerWorkflowSafety {
  import opened Clock
  import opened OAuthServer
  import opened Options
  import opened OwnerWorkflow
  import opened ReplayWindow

  // ---------------------------------------------------------------- grants and journals

  /** The server issued this pair, and its recorded dates bound its lifetimes from below. */
  ghost predicate GrantSound(t: Timing, o: OAuth, g: GrantSnapshot, f: Family) {
    && o.Issued(g.access, AccessToken, f) && o.Issued(g.refresh, RefreshToken, f)
    && o.tokens[g.refresh].expires == o.families[f].expires
    && g.first + REFRESH_FAMILY_TTL <= o.families[f].expires + t.lag
    && Earlier(g.latest + ACCESS_TOKEN_TTL - t.lag, o.families[f].expires) <= o.tokens[g.access].expires
  }

  /** Neither journaled token can expire before its own cutoff, even by a date a second behind. */
  ghost predicate JournalSound(o: OAuth, j: Journal, f: Family) {
    && o.Issued(j.access, AccessToken, f) && o.Issued(j.refresh, RefreshToken, f)
    && o.tokens[j.refresh].expires == o.families[f].expires
    && j.accessUntil <= j.refreshUntil
    && j.accessUntil + SECOND <= o.tokens[j.access].expires
    && j.refreshUntil + SECOND <= o.families[f].expires
  }

  lemma JournalForSound(t: Timing, o: OAuth, g: GrantSnapshot, f: Family, confirmedAt: Time)
    requires t.Bounded() && GrantSound(t, o, g, f)
    ensures JournalSound(o, JournalFor(g, confirmedAt), f)
  {
  }

  /** A rotation's successor pair, journaled with its own date, is as good an authority as the old one. */
  lemma SuccessorSound(t: Timing, o: OAuth, j: Journal, f: Family, access: Token, refresh: Token, now: Time, date: Time)
    requires t.Bounded() && o.Valid() && JournalSound(o, j, f) && Dates(t, now, date)
    requires access !in o.tokens && refresh !in o.tokens && access != refresh
    requires o.RefreshWith(j.refresh, access, refresh, now).1.Rotated?
    ensures JournalSound(o.RefreshWith(j.refresh, access, refresh, now).0, Successor(j, access, refresh, date), f)
  {
  }

  /** So does the SDK's own rotation keep its grant sound. */
  lemma RotatedGrantSound(t: Timing, o: OAuth, g: GrantSnapshot, f: Family, access: Token, refresh: Token, now: Time,
          date: Time)
    requires t.Bounded() && o.Valid() && GrantSound(t, o, g, f) && Dates(t, now, date)
    requires access !in o.tokens && refresh !in o.tokens && access != refresh
    requires o.RefreshWith(g.refresh, access, refresh, now).1.Rotated?
    ensures GrantSound(t, o.RefreshWith(g.refresh, access, refresh, now).0,
            GrantSnapshot(access, refresh, g.first, date), f)
  {
  }

  // ---------------------------------------------------------------- the invariant

  /** All messages and records belong to the one live intent, in time for the server's memory of its key. */
  ghost predicate CreateSound(t: Timing, s: State) {
    && (forall u <- s.net :: u < s.nextUid) && (forall u <- s.replies :: u < s.nextUid)
    && match s.live
       case None => s.net == map[] && s.account.accepted == [] && s.account.records == map[]
       case Some(i) =>
         && i.key in s.keys
         && (forall u <- s.net :: MessageSound(t, s.now, i, s.net[u]))
         && AcceptanceSound(s.now, i, s.account)
  }

  ghost predicate MessageSound(t: Timing, now: Time, i: Intent, m: CreateMessage) {
    && m.key == i.key && m.payload == i.payload
    && i.serverTime <= m.sentAt <= now && m.sentAt + t.delay < i.serverTime + IDEMPOTENCY_TTL
  }

  ghost predicate AcceptanceSound(now: Time, i: Intent, account: Account) {
    match |account.accepted|
    case 0 => account.records == map[]
    case 1 =>
      var a := account.accepted[0];
      && a.key == i.key && a.payload == i.payload && i.serverTime <= a.at <= now
      && account.records == map[i.key := Record(a.at, i.payload, a.id)]
    case _ => false
  }

  ghost predicate DiskSound(s: State) {
    && (s.disk.intent.Some? ==> s.live == s.disk.intent)
    && (s.live.Some? && s.disk.intent.None? ==> s.disk.sentinel.Some?)
    && (s.completing.Some? <==> s.disk.journal.Some? || s.disk.sentinel.Some?)
    && (s.disk.journal.Some? ==> JournalSound(s.oauth, s.disk.journal.value, s.completing.value))
    && (s.disk.journal.Some? && s.disk.sentinel.Some? ==> s.disk.sentinel.value == s.disk.journal.value.confirmedAt)
    && (s.disk.sentinel.Some? && s.disk.journal.None? ==> s.oauth.Revoked(s.completing.value))
  }

  ghost predicate NothingSent(s: State) {
    s.net == map[] && s.account.accepted == []
  }

  ghost predicate TaskSound(t: Timing, s: State, task: Task) {
    match task
    case Ready(found) => found == s.disk.intent
    case Reading(found, listing, date, readAt) => found == s.disk.intent && readAt <= s.now && Dates(t, readAt, date)
    case Stamped(found, listing, date, observedAt) =>
      found == s.disk.intent && date <= observedAt - t.offset <= s.now
          && observedAt - t.offset < date + SECOND + t.latency
    case SendReady(i, deadline, first) =>
      && s.disk.intent == Some(i) && i.serverTime <= s.now
      && deadline - t.offset + t.delay <= i.serverTime + IDEMPOTENCY_TTL
      && (first ==> NothingSent(s))
    case Awaiting(i, uid, first) =>
      && s.disk.intent == Some(i) && uid < s.nextUid
      && (first ==> FirstSendSound(s, uid))
    case Refused(i) => s.disk.intent == Some(i) && NothingSent(s)
    case _ => s.disk.intent == Some(task.intent)
  }

  /** The first send of a fresh intent is the only message of its key, and a rejection of it is final. */
  ghost predicate FirstSendSound(s: State, uid: nat) {
    && s.net.Keys <= {uid}
    && (uid in s.net ==> uid !in s.replies && s.account.accepted == [])
    && (uid in s.replies && s.replies[uid].Rejected? ==> NothingSent(s))
  }

  ghost predicate StageSound(s: State, j: Journal, stage: Stage) {
    if stage.Persist? then
      && s.disk.journal.None? && s.disk.sentinel.None? && s.disk.intent.Some?
      && j.refresh in s.oauth.tokens && JournalSound(s.oauth, j, s.oauth.tokens[j.refresh].family)
    else
      && s.completing.Some? && JournalSound(s.oauth, j, s.completing.value)
      && s.disk.journal == (if stage.FinishIntent? then None else Some(j))
      && (stage.Replacing? ==>
          JournalSound(s.oauth, stage.successor, s.completing.value) && stage.successor.confirmedAt == j.confirmedAt)
      && (!stage.EnsureSentinel? ==> s.disk.sentinel == Some(j.confirmedAt))
      && (stage.Reload? || stage.FinishSentinel? || stage.FinishJournal? || stage.FinishIntent? ==>
          s.oauth.Revoked(s.completing.value))
  }

  /** What the next process can act on, or need not: an intent, a journal or a dead grant. */
  ghost predicate LastingAuthority(s: State, f: Family) {
    s.disk.intent.Some? || s.disk.journal.Some? || s.oauth.Dead(f, s.now)
  }

  /** What remains after an error return: an intent, a journal, a sent revocation or a dead grant. */
  ghost predicate AuthorityKept(s: State, f: Family, revokeSent: bool) {
    revokeSent || LastingAuthority(s, f)
  }

  ghost predicate ProcessSound(t: Timing, s: State) {
    match s.process
    case Idle => true
    case Connecting(found) => found == s.disk.intent && s.disk.journal.None? && s.disk.sentinel.None?
    case Running(run, task) =>
      && s.disk.journal.None? && s.disk.sentinel.None?
      && GrantSound(t, s.oauth, run.captured, run.family) && GrantSound(t, s.oauth, run.current, run.family)
      && TaskSound(t, s, task)
    case Cleaning(run) =>
      && s.disk.journal.None? && s.disk.sentinel.None? && GrantSound(t, s.oauth, run.captured, run.family)
    case Closing(j, stage, _) => StageSound(s, j, stage)
    case Exited(f, revokeSent, revokeTook, existsFailed) =>
      && (revokeTook ==> revokeSent && s.oauth.Dead(f, s.now)) && (existsFailed || revokeSent ==> s.disk.journal.None?)
      && (if existsFailed then !revokeSent else revokeSent || LastingAuthority(s, f))
  }

  ghost predicate Inv(t: Timing, s: State) {
    s.oauth.Valid() && s.oauth.SweptInTime(s.now) && CreateSound(t, s) && DiskSound(s) && ProcessSound(t, s)
  }

  lemma InitialInv(t: Timing, s: State)
    requires Starts(s)
    ensures Inv(t, s)
  {
  }

  // ---------------------------------------------------------------- one lemma per kind of step

  /** Nothing that the server does to its tokens can break the invariant. */
  lemma OAuthGrowth(t: Timing, s: State, oauth: OAuth)
    requires Inv(t, s) && oauth.Valid() && oauth.SweptInTime(s.now) && Extends(s.oauth, oauth)
    ensures Inv(t, s.(oauth := oauth))
  {
    var s' := s.(oauth := oauth);
    assert DiskSound(s');
    assert CreateSound(t, s');
  }

  /** Steps that only move the process: the durable and server parts of the invariant carry over. */
  lemma ProcessMoves(t: Timing, s: State, p: Process)
    requires Inv(t, s) && ProcessSound(t, s.(process := p))
    ensures Inv(t, s.(process := p))
  {
    assert CreateSound(t, s.(process := p));
    assert DiskSound(s.(process := p));
  }

  lemma TickKeepsInv(t: Timing, s: State, now: Time)
    requires Inv(t, s) && s.now <= now
    ensures Inv(t, s.(now := now))
  {
    var s' := s.(now := now);
    assert CreateSound(t, s');
    assert DiskSound(s');
    if s.process.Running? { assert TaskSound(t, s', s.process.task); }
  }

  lemma EditsKeepInv(t: Timing, s: State, resumes: set<ResumeId>)
    requires Inv(t, s)
    ensures Inv(t, s.(account := s.account.(resumes := resumes)))
  {
    var s' := s.(account := s.account.(resumes := resumes));
    assert CreateSound(t, s');
    assert DiskSound(s');
    if s.process.Running? { assert TaskSound(t, s', s.process.task); }
  }

  lemma OwnerRevokesKeepsInv(t: Timing, s: State, f: Family)
    requires Inv(t, s) && f in s.oauth.families
    ensures Inv(t, s.(oauth := s.oauth.RevokeFamily(f)))
  {
    assert Extends(s.oauth, s.oauth.RevokeFamily(f));
    OAuthGrowth(t, s, s.oauth.RevokeFamily(f));
  }

  lemma SweepKeepsInv(t: Timing, s: State, gone: set<Token>)
    requires Inv(t, s) && forall token <- gone :: s.oauth.Sweepable(token, s.now)
    ensures Inv(t, s.(oauth := s.oauth.Sweep(gone)))
  {
    SweepExtends(s.oauth, gone, s.now);
    OAuthGrowth(t, s, s.oauth.Sweep(gone));
  }

  lemma DropKeepsInv(t: Timing, s: State, uid: nat)
    requires Inv(t, s)
    ensures Inv(t, s.(net := s.net - {uid}))
  {
    var s' := s.(net := s.net - {uid});
    assert CreateSound(t, s');
    assert DiskSound(s');
    if s.process.Running? { assert TaskSound(t, s', s.process.task); }
  }

  lemma DeliverKeepsInv(t: Timing, s: State, uid: nat, verdict: Verdict)
    requires t.Bounded() && Inv(t, s) && DeliverStep(t, s, uid, verdict).Some?
    ensures Inv(t, DeliverStep(t, s, uid, verdict).value)
  {
    var s' := DeliverStep(t, s, uid, verdict).value;
    var i := s.live.value;
    assert MessageSound(t, s.now, i, s.net[uid]);
    assert AcceptanceSound(s'.now, i, s'.account);
    assert CreateSound(t, s');
  }

  lemma ConnectKeepsInv(t: Timing, s: State, f: Family, access: Token, refresh: Token, date: Time)
    requires t.Bounded() && Inv(t, s) && ConnectStep(t, s, f, access, refresh, date).Some?
    ensures Inv(t, ConnectStep(t, s, f, access, refresh, date).value)
  {
    GrantExtends(s.oauth, f, access, refresh, s.now);
    OAuthGrowth(t, s, s.oauth.Grant(f, access, refresh, s.now));
  }

  lemma SdkRefreshKeepsInv(t: Timing, s: State, run: Run, access: Token, refresh: Token, date: Time, received: bool)
    requires t.Bounded() && Inv(t, s)
    requires (s.process.Running? && s.process.run == run) || (s.process.Closing? && s.process.session == Some(run))
    requires SdkRefreshStep(t, s, run, access, refresh, date, received).Some?
    ensures Inv(t, SdkRefreshStep(t, s, run, access, refresh, date, received).value)
  {
    var s' := SdkRefreshStep(t, s, run, access, refresh, date, received).value;
    RefreshExtends(s.oauth, run.current.refresh, access, refresh, s.now);
    OAuthGrowth(t, s, s'.oauth);
    if s.process.Running? && s.oauth.RefreshWith(run.current.refresh, access, refresh, s.now).1.Rotated? {
      RotatedGrantSound(t, s.oauth, run.current, run.family, access, refresh, s.now, date);
    }
    ProcessMoves(t, s.(oauth := s'.oauth), s'.process);
  }

  lemma PersistIntentKeepsInv(t: Timing, s: State, run: Run, task: Task, key: Key, payload: Payload, io: Io)
    requires t.Bounded() && Inv(t, s) && s.process == Running(run, task)
    requires PersistIntentStep(s, run, task, key, payload, io).Some?
    ensures Inv(t, PersistIntentStep(s, run, task, key, payload, io).value)
  {
    var s' := PersistIntentStep(s, run, task, key, payload, io).value;
    assert s.live.None?;
    assert CreateSound(t, s');
    assert DiskSound(s');
    assert ProcessSound(t, s');
  }

  lemma SendKeepsInv(t: Timing, s: State, run: Run, task: Task)
    requires t.Bounded() && Inv(t, s) && s.process == Running(run, task)
    requires SendStep(t, s, run, task).Some?
    ensures Inv(t, SendStep(t, s, run, task).value)
  {
    var s' := SendStep(t, s, run, task).value;
    assert MessageSound(t, s.now, s.live.value, s'.net[s.nextUid]);
    assert CreateSound(t, s');
    assert DiskSound(s');
    assert TaskSound(t, s', s'.process.task);
  }

  lemma RemoveRefusedKeepsInv(t: Timing, s: State, run: Run, task: Task, io: Io)
    requires t.Bounded() && Inv(t, s) && s.process == Running(run, task)
    requires RunningStep(t, s, run, task, RemoveRefused(io)).Some?
    ensures Inv(t, RunningStep(t, s, run, task, RemoveRefused(io)).value)
  {
    var s' := RunningStep(t, s, run, task, RemoveRefused(io)).value;
    assert CreateSound(t, s');
    assert DiskSound(s');
  }

  lemma PrepareJournalKeepsInv(t: Timing, s: State, run: Run, task: Task, useCurrent: bool)
    requires t.Bounded() && Inv(t, s) && s.process == Running(run, task)
    requires PrepareJournalStep(s, run, task, useCurrent).Some?
    ensures Inv(t, PrepareJournalStep(s, run, task, useCurrent).value)
  {
    JournalForSound(t, s.oauth, run.current, run.family, task.confirmedAt);
    JournalForSound(t, s.oauth, run.captured, run.family, task.confirmedAt);
    ProcessMoves(t, s, PrepareJournalStep(s, run, task, useCurrent).value.process);
  }

  /** The other steps of a run read the server or decide; they move only the process. */
  lemma RunningKeepsInv(t: Timing, s: State, run: Run, task: Task, a: Action)
    requires t.Bounded() && Inv(t, s) && s.process == Running(run, task)
    requires a.Fail? || a.ReadAccount? || a.Stamp? || a.PrepareReplay? || a.GiveUp? || a.AcceptListed? || a.VerifyFinal?
    requires RunningStep(t, s, run, task, a).Some?
    ensures Inv(t, RunningStep(t, s, run, task, a).value)
  {
    hide CreateSound, DiskSound;
    var s' := RunningStep(t, s, run, task, a).value;
    assert s' == s.(process := s'.process);
    assert ProcessSound(t, s');
    ProcessMoves(t, s, s'.process);
  }

  lemma ReceiveKeepsInv(t: Timing, s: State, run: Run, task: Task)
    requires t.Bounded() && Inv(t, s) && s.process == Running(run, task)
    requires ReceiveStep(s, run, task).Some?
    ensures Inv(t, ReceiveStep(s, run, task).value)
  {
    hide CreateSound, DiskSound;
    var s' := ReceiveStep(s, run, task).value;
    assert ProcessSound(t, s');
    ProcessMoves(t, s, s'.process);
  }

  /** Writing files and moving the process leaves the server's and the network's part alone. */
  lemma CreateCarries(t: Timing, s: State, s': State)
    requires CreateSound(t, s) && s' == s.(disk := s'.disk, completing := s'.completing, process := s'.process)
    ensures CreateSound(t, s')
  {
  }

  lemma PersistJournalKeepsInv(t: Timing, s: State, j: Journal, session: Option<Run>, io: Io)
    requires t.Bounded() && Inv(t, s) && s.process == Closing(j, Persist, session)
    ensures Inv(t, WriteStep(s, j, Persist, session, io).value)
  {
    hide CreateSound;
    var s' := WriteStep(s, j, Persist, session, io).value;
    assert DiskSound(s');
    CreateCarries(t, s, s');
  }

  lemma EnsureSentinelKeepsInv(t: Timing, s: State, j: Journal, stage: Stage, session: Option<Run>, io: Io)
    requires t.Bounded() && Inv(t, s) && s.process == Closing(j, stage, session)
    requires stage.EnsureSentinel? || stage.FinishSentinel?
    ensures Inv(t, WriteStep(s, j, stage, session, io).value)
  {
    hide CreateSound;
    var s' := WriteStep(s, j, stage, session, io).value;
    if s.disk.sentinel.Some? {
      ProcessMoves(t, s, s'.process);
    } else {
      assert DiskSound(s');
      CreateCarries(t, s, s');
      assert ProcessSound(t, s');
    }
  }

  lemma DropIntentKeepsInv(t: Timing, s: State, j: Journal, stage: Stage, session: Option<Run>, io: Io)
    requires t.Bounded() && Inv(t, s) && s.process == Closing(j, stage, session)
    requires stage.DropIntent? || stage.FinishIntent?
    ensures Inv(t, WriteStep(s, j, stage, session, io).value)
  {
    hide CreateSound;
    var s' := WriteStep(s, j, stage, session, io).value;
    assert DiskSound(s');
    CreateCarries(t, s, s');
  }

  lemma ReplaceJournalKeepsInv(t: Timing, s: State, j: Journal, stage: Stage, session: Option<Run>, io: Io)
    requires t.Bounded() && Inv(t, s) && s.process == Closing(j, stage, session) && stage.Replacing?
    ensures Inv(t, WriteStep(s, j, stage, session, io).value)
  {
    hide CreateSound;
    var s' := WriteStep(s, j, stage, session, io).value;
    assert DiskSound(s');
    CreateCarries(t, s, s');
  }

  lemma RemoveJournalKeepsInv(t: Timing, s: State, j: Journal, session: Option<Run>, io: Io)
    requires t.Bounded() && Inv(t, s) && s.process == Closing(j, FinishJournal, session)
    ensures Inv(t, WriteStep(s, j, FinishJournal, session, io).value)
  {
    hide CreateSound;
    var s' := WriteStep(s, j, FinishJournal, session, io).value;
    assert DiskSound(s');
    CreateCarries(t, s, s');
  }

  lemma WriteKeepsInv(t: Timing, s: State, j: Journal, stage: Stage, session: Option<Run>, io: Io)
    requires t.Bounded() && Inv(t, s) && s.process == Closing(j, stage, session)
    requires WriteStep(s, j, stage, session, io).Some?
    ensures Inv(t, WriteStep(s, j, stage, session, io).value)
  {
    hide Inv;
    if stage.Persist? { PersistJournalKeepsInv(t, s, j, session, io); }
    else if stage.EnsureSentinel? || stage.FinishSentinel? { EnsureSentinelKeepsInv(t, s, j, stage, session, io); }
    else if stage.DropIntent? || stage.FinishIntent? { DropIntentKeepsInv(t, s, j, stage, session, io); }
    else if stage.Replacing? { ReplaceJournalKeepsInv(t, s, j, stage, session, io); }
    else { RemoveJournalKeepsInv(t, s, j, session, io); }
  }

  lemma RevokeCallKeepsInv(t: Timing, s: State, j: Journal, stage: Stage, session: Option<Run>, took: bool)
    requires t.Bounded() && Inv(t, s) && s.process == Closing(j, stage, session)
    requires ClosingStep(t, s, j, stage, session, RevokeCall(took)).Some?
    ensures Inv(t, ClosingStep(t, s, j, stage, session, RevokeCall(took)).value)
  {
    hide CreateSound, DiskSound;
    var s' := ClosingStep(t, s, j, stage, session, RevokeCall(took)).value;
    AnyTokenKillsItsFamily(s.oauth, s.oauth, j.refresh, s.completing.value, s.now);
    OAuthGrowth(t, s, s'.oauth);
    ProcessMoves(t, s.(oauth := s'.oauth), s'.process);
  }

  /** A timely denial of the journaled access token proves its family dead, in the SDK's request or a probe. */
  lemma ProbeKeepsInv(t: Timing, s: State, j: Journal, stage: Stage, session: Option<Run>, a: Action)
    requires t.Bounded() && Inv(t, s) && s.process == Closing(j, stage, session)
    requires a.SdkProof? || a.Probe?
    requires ClosingStep(t, s, j, stage, session, a).Some?
    ensures Inv(t, ClosingStep(t, s, j, stage, session, a).value)
  {
    hide CreateSound, DiskSound;
    var s' := ClosingStep(t, s, j, stage, session, a).value;
    if a.date < j.accessUntil {
      DeniedUnexpiredMeansRevoked(s.oauth, j.access, s.completing.value, s.now);
    }
    ProcessMoves(t, s, s'.process);
  }

  lemma RefreshKeepsInv(t: Timing, s: State, j: Journal, stage: Stage, session: Option<Run>, access: Token,
          refresh: Token, date: Time, received: bool)
    requires t.Bounded() && Inv(t, s) && s.process == Closing(j, stage, session)
    requires RefreshStep(t, s, j, stage, session, access, refresh, date, received).Some?
    ensures Inv(t, RefreshStep(t, s, j, stage, session, access, refresh, date, received).value)
  {
    hide CreateSound, DiskSound;
    var s' := RefreshStep(t, s, j, stage, session, access, refresh, date, received).value;
    RefreshExtends(s.oauth, j.refresh, access, refresh, s.now);
    OAuthGrowth(t, s, s'.oauth);
    if date < j.refreshUntil {
      RefusedUnexpiredMeansRevoked(s.oauth, j.refresh, s.completing.value, access, refresh, s.now);
      if s.oauth.RefreshWith(j.refresh, access, refresh, s.now).1.Rotated? {
        SuccessorSound(t, s.oauth, j, s.completing.value, access, refresh, s.now, date);
      }
    }
    ProcessMoves(t, s.(oauth := s'.oauth), s'.process);
  }

  lemma ClosingKeepsInv(t: Timing, s: State, j: Journal, stage: Stage, session: Option<Run>, a: Action)
    requires t.Bounded() && Inv(t, s) && s.process == Closing(j, stage, session)
    requires a.Fail? || a.InspectTarget? || a.LoadAgain?
    requires ClosingStep(t, s, j, stage, session, a).Some?
    ensures Inv(t, ClosingStep(t, s, j, stage, session, a).value)
  {
    ProcessMoves(t, s, ClosingStep(t, s, j, stage, session, a).value.process);
  }

  lemma CleanupKeepsInv(t: Timing, s: State, existsFails: bool, took: bool)
    requires t.Bounded() && Inv(t, s) && CleanupStep(s, existsFails, took).Some?
    ensures Inv(t, CleanupStep(s, existsFails, took).value)
  {
    var run := s.process.run;
    AnyTokenKillsItsFamily(s.oauth, s.oauth, run.captured.refresh, run.family, s.now);
    OAuthGrowth(t, s, s.oauth.Revoke(run.captured.refresh));
    var s' := CleanupStep(s, existsFails, took).value;
    ProcessMoves(t, s.(oauth := s'.oauth), s'.process);
  }

  /** Every step keeps the invariant. */
  lemma StepKeepsInv(t: Timing, s: State, a: Action)
    requires t.Bounded() && Inv(t, s) && Step(t, s, a).Some?
    ensures Inv(t, Step(t, s, a).value)
  {
    hide Inv, DeliverStep, ProcessStep;
    if a.Deliver? {
      DeliverKeepsInv(t, s, a.uid, a.verdict);
    } else if a.OwnerEdits? || a.OwnerRevokes? || a.Sweep? {
      OthersKeepInv(t, s, a);
    } else if EnvironmentStep(s, a).Some? {
      EnvironmentKeepsInv(t, s, a);
    } else {
      ProcessStepKeepsInv(t, s, a);
    }
  }

  lemma EnvironmentKeepsInv(t: Timing, s: State, a: Action)
    requires t.Bounded() && Inv(t, s) && EnvironmentStep(s, a).Some? && (a.Tick? || a.Crash? || a.DropMessage?)
    ensures Inv(t, EnvironmentStep(s, a).value)
  {
    hide CreateSound, DiskSound;
    match a
    case Tick(elapsed) => TickKeepsInv(t, s, s.now + elapsed);
    case Crash => ProcessMoves(t, s, Idle);
    case DropMessage(uid) => DropKeepsInv(t, s, uid);
  }

  /** The owner and the server's own sweep. */
  lemma OthersKeepInv(t: Timing, s: State, a: Action)
    requires t.Bounded() && Inv(t, s) && EnvironmentStep(s, a).Some? && (a.OwnerEdits? || a.OwnerRevokes? || a.Sweep?)
    ensures Inv(t, EnvironmentStep(s, a).value)
  {
    match a
    case OwnerEdits(resumes) => EditsKeepInv(t, s, resumes);
    case OwnerRevokes(f) => OwnerRevokesKeepsInv(t, s, f);
    case Sweep(gone) => SweepKeepsInv(t, s, gone);
  }

  lemma ProcessStepKeepsInv(t: Timing, s: State, a: Action)
    requires t.Bounded() && Inv(t, s) && ProcessStep(t, s, a).Some?
    ensures Inv(t, ProcessStep(t, s, a).value)
  {
    hide RunningStep, ClosingStep, ConnectStep, CleanupStep, ReceiveStep;
    match s.process
    case Idle => ProcessMoves(t, s, StartStep(s).value.process);
    case Connecting(_) => ConnectKeepsInv(t, s, a.newFamily, a.access, a.refresh, a.date);
    case Running(run, task) =>
      if a.Receive? { ReceiveKeepsInv(t, s, run, task); } else { RunningStepKeepsInv(t, s, run, task, a); }
    case Closing(journal, stage, session) => ClosingStepKeepsInv(t, s, journal, stage, session, a);
    case Cleaning(_) => CleanupKeepsInv(t, s, a.existsFails, a.took);
    case Exited(_, _, _, _) => ProcessMoves(t, s, Idle);
  }

  lemma RunningStepKeepsInv(t: Timing, s: State, run: Run, task: Task, a: Action)
    requires t.Bounded() && Inv(t, s) && s.process == Running(run, task)
    requires RunningStep(t, s, run, task, a).Some?
    ensures Inv(t, RunningStep(t, s, run, task, a).value)
  {
    hide Inv, SdkRefreshStep, ReadAccountStep, PersistIntentStep, PrepareReplayStep, SendStep, AcceptListedStep,
        PrepareJournalStep;
    match a
    case SdkRefresh(access, refresh, date, received) => SdkRefreshKeepsInv(t, s, run, access, refresh, date, received);
    case PersistIntent(key, payload, io) => PersistIntentKeepsInv(t, s, run, task, key, payload, io);
    case Send => SendKeepsInv(t, s, run, task);
    case RemoveRefused(io) => RemoveRefusedKeepsInv(t, s, run, task, io);
    case PrepareJournal(useCurrent) => PrepareJournalKeepsInv(t, s, run, task, useCurrent);
    case _ => RunningKeepsInv(t, s, run, task, a);
  }

  lemma ClosingStepKeepsInv(t: Timing, s: State, j: Journal, stage: Stage, session: Option<Run>, a: Action)
    requires t.Bounded() && Inv(t, s) && s.process == Closing(j, stage, session)
    requires ClosingStep(t, s, j, stage, session, a).Some?
    ensures Inv(t, ClosingStep(t, s, j, stage, session, a).value)
  {
    hide Inv, WriteStep, SdkRefreshStep, SdkProofStep, ProbeStep, RefreshStep, Stop;
    match a
    case SdkRefresh(access, refresh, date, received) =>
      SdkRefreshKeepsInv(t, s, session.value, access, refresh, date, received);
    case Write(io) => WriteKeepsInv(t, s, j, stage, session, io);
    case RevokeCall(took) => RevokeCallKeepsInv(t, s, j, stage, session, took);
    case SdkProof(_, _) => ProbeKeepsInv(t, s, j, stage, session, a);
    case Probe(_) => ProbeKeepsInv(t, s, j, stage, session, a);
    case Refresh(access, refresh, date, received) =>
      RefreshKeepsInv(t, s, j, stage, session, access, refresh, date, received);
    case _ => ClosingKeepsInv(t, s, j, stage, session, a);
  }

  lemma {:induction false} TraceKeepsInv(t: Timing, states: seq<State>, actions: seq<Action>, n: nat)
    requires t.Bounded() && IsTrace(t, states, actions) && Starts(states[0]) && n <= |actions|
    ensures Inv(t, states[n])
  {
    if n == 0 {
      InitialInv(t, states[0]);
    } else {
      TraceKeepsInv(t, states, actions, n - 1);
      assert Step(t, states[n - 1], actions[n - 1]) == Some(states[n - 1 + 1]);
      StepKeepsInv(t, states[n - 1], actions[n - 1]);
    }
  }

  lemma ReachableInv(t: Timing, s: State)
    requires t.Bounded() && Reachable(t, s)
    ensures Inv(t, s)
  {
    var states, actions :| IsTrace(t, states, actions) && Starts(states[0]) && states[|actions|] == s;
    TraceKeepsInv(t, states, actions, |actions|);
  }
}
