/** The promises of the owner workflow, over all its runs: any interleaving of crashes, losses and restarts. */
module OwnerWorkflowTheorems {
  import opened Clock
  import opened OAuthServer
  import opened Options
  import opened OwnerWorkflow
  import opened OwnerWorkflowSafety
  import opened ReplayWindow

  /** The server accepts at most one create from this control root, ever. */
  lemma AtMostOneCreate(t: Timing, s: State)
    requires t.Bounded() && Reachable(t, s)
    ensures |s.account.accepted| <= 1
  {
    ReachableInv(t, s);
  }

  /** Once a create was accepted, every further delivery of any message is answered with that same resume. */
  lemma LaterDeliveriesAnswerWithTheFirst(t: Timing, s: State, uid: nat, verdict: Verdict)
    requires t.Bounded() && Reachable(t, s) && s.account.accepted != []
    requires DeliverStep(t, s, uid, verdict).Some?
    ensures var s' := DeliverStep(t, s, uid, verdict).value;
            s'.account == s.account && s'.replies[uid] == Created(s.account.accepted[0].id)
  {
    ReachableInv(t, s);
    assert MessageSound(t, s.now, s.live.value, s.net[uid]);
  }

  /** While a create may have been accepted, or may still be, the intent or the journal is on disk, until the
      sentinel is there and the completing run's grant is dead. */
  lemma AuthorityNeverLost(t: Timing, s: State)
    requires t.Bounded() && Reachable(t, s)
    requires s.account.accepted != [] || s.net != map[]
    ensures s.disk.intent.Some? || s.disk.journal.Some?
            || (s.disk.sentinel.Some? && s.completing.Some? && s.oauth.Revoked(s.completing.value))
  {
    ReachableInv(t, s);
  }

  /** Only one run ever completes, and when nothing but the sentinel is left, its grant is revoked. */
  lemma CompletedMeansRevoked(t: Timing, s: State)
    requires t.Bounded() && Reachable(t, s)
    ensures s.completing.Some? <==> s.disk.journal.Some? || s.disk.sentinel.Some?
    ensures s.disk.sentinel.Some? && s.disk.journal.None? ==> s.oauth.Revoked(s.completing.value)
  {
    ReachableInv(t, s);
  }

  /** When the workflow takes a proof as given, the journaled family is revoked; it did not merely expire. */
  lemma SettledMeansRevoked(t: Timing, s: State)
    requires t.Bounded() && Reachable(t, s) && s.process.Closing?
    requires s.process.stage.Reload? || s.process.stage.FinishSentinel? || s.process.stage.FinishJournal?
             || s.process.stage.FinishIntent?
    ensures s.completing.Some? && s.oauth.Issued(s.process.journal.refresh, RefreshToken, s.completing.value)
    ensures s.oauth.Revoked(s.completing.value)
  {
    ReachableInv(t, s);
  }

  /**
   Whatever was rotated, lost or replaced, the journal on disk names a token that kills the completing family, now
   and after any further server activity: only when that family's lifetime is over may the token have been swept.
   */
  lemma JournalAlwaysKills(t: Timing, s: State, later: OAuth, now: Time)
    requires t.Bounded() && Reachable(t, s) && s.disk.journal.Some?
    requires later.Valid() && later.SweptInTime(now) && Extends(s.oauth, later)
    ensures s.completing.Some? && s.completing.value in later.families
    ensures var killed := later.Revoke(s.disk.journal.value.refresh);
            if now < later.families[s.completing.value].expires then killed.Revoked(s.completing.value)
            else killed.Dead(s.completing.value, now)
  {
    ReachableInv(t, s);
    AnyTokenKillsItsFamily(s.oauth, later, s.disk.journal.value.refresh, s.completing.value, now);
  }

  /** Once journaled, presenting the process's token leaves the completing family dead... */
  lemma RevokingKills(t: Timing, s: State)
    requires t.Bounded() && Reachable(t, s) && s.process.Closing? && !s.process.stage.Persist?
    ensures s.completing.Some? && s.oauth.Revoke(s.process.journal.refresh).Dead(s.completing.value, s.now)
  {
    ReachableInv(t, s);
    AnyTokenKillsItsFamily(s.oauth, s.oauth, s.process.journal.refresh, s.completing.value, s.now);
  }

  /** ...and a dead family's tokens are denied and refused. */
  lemma DeadIsRefused(t: Timing, s: State, access: Token, refresh: Token)
    requires t.Bounded() && Reachable(t, s) && s.process.Closing? && !s.process.stage.Persist?
    requires s.completing.Some? && s.oauth.Dead(s.completing.value, s.now)
    ensures !s.oauth.Accepts(s.process.journal.access, s.now)
    ensures s.oauth.RefreshWith(s.process.journal.refresh, access, refresh, s.now).1.InvalidGrant?
  {
    ReachableInv(t, s);
  }

  /** A sentinel that the process meets always matches its journal, so completion never stops on a conflict. */
  lemma SentinelNeverConflicts(t: Timing, s: State)
    requires t.Bounded() && Reachable(t, s) && s.process.Closing? && s.disk.sentinel.Some?
    requires s.process.stage.EnsureSentinel? || s.process.stage.FinishSentinel?
    ensures s.disk.sentinel.value == s.process.journal.confirmedAt
  {
    ReachableInv(t, s);
  }

  // ---------------------------------------------------------------- what one step may change

  /** Which statements of the source may touch the keys, the network and the durable files. */
  ghost predicate Footprint(s: State, s': State) {
    && (s'.keys != s.keys ==> s.process.Running? && s.process.task.Stamped? && s.process.task.found.None?)
    && (forall u <- s'.net :: u in s.net || (s.process.Running? && s.process.task.SendReady?
                              && s'.net[u] == CreateMessage(s.process.task.intent.key, s.process.task.intent.payload,
                                  s.now)))
    && (s.disk.intent.Some? && s'.disk.intent != s.disk.intent ==>
          s'.disk.intent.None? && ((s.process.Running? && s.process.task.Refused?)
                                   || (s.process.Closing?
                                       && (s.process.stage.DropIntent? || s.process.stage.FinishIntent?))))
    && (s.disk.sentinel.Some? ==> s'.disk.sentinel == s.disk.sentinel)
    && (s'.completing != s.completing ==> s.process.Closing? && s.process.stage.Persist?)
    && (s'.disk.journal.None? && s.disk.journal.Some? ==> s.process.Closing? && s.process.stage.FinishJournal?)
  }

  lemma RunningFootprint(t: Timing, s: State, run: Run, task: Task, a: Action)
    requires s.process == Running(run, task) && RunningStep(t, s, run, task, a).Some?
    ensures Footprint(s, RunningStep(t, s, run, task, a).value)
  {
  }

  lemma WriteFootprint(s: State, j: Journal, stage: Stage, session: Option<Run>, io: Io)
    requires s.process == Closing(j, stage, session) && WriteStep(s, j, stage, session, io).Some?
    ensures Footprint(s, WriteStep(s, j, stage, session, io).value)
  {
  }

  lemma ClosingFootprint(t: Timing, s: State, j: Journal, stage: Stage, session: Option<Run>, a: Action)
    requires s.process == Closing(j, stage, session) && ClosingStep(t, s, j, stage, session, a).Some?
    ensures Footprint(s, ClosingStep(t, s, j, stage, session, a).value)
  {
    if a.Write? { WriteFootprint(s, j, stage, session, a.io); }
  }

  lemma StepFootprint(t: Timing, s: State, a: Action)
    requires Step(t, s, a).Some?
    ensures Footprint(s, Step(t, s, a).value)
  {
    hide RunningStep, ClosingStep;
    if !a.Deliver? && EnvironmentStep(s, a).None? {
      if s.process.Running? && !a.Receive? {
        RunningFootprint(t, s, s.process.run, s.process.task, a);
      } else if s.process.Closing? {
        ClosingFootprint(t, s, s.process.journal, s.process.stage, s.process.session, a);
      }
    }
  }

  /** `s'` follows `s` in some run. */
  ghost predicate Next(t: Timing, s: State, s': State) {
    exists a :: Step(t, s, a) == Some(s')
  }

  lemma NextKeeps(t: Timing, s: State, s': State)
    requires t.Bounded() && Reachable(t, s) && Next(t, s, s')
    ensures Inv(t, s) && Inv(t, s') && Footprint(s, s')
  {
    var a :| Step(t, s, a) == Some(s');
    ReachableInv(t, s);
    StepKeepsInv(t, s, a);
    StepFootprint(t, s, a);
  }

  /** A key is issued only when intent, journal and sentinel are all absent, and nothing is under way. */
  lemma FreshKeyOnlyWhenNothingIsStored(t: Timing, s: State, s': State)
    requires t.Bounded() && Reachable(t, s) && Next(t, s, s') && s'.keys != s.keys
    ensures s.disk == Disk(None, None, None) && s.net == map[] && s.account.accepted == []
  {
    NextKeeps(t, s, s');
  }

  /** Everything sent carries the key and the payload of the intent on disk. */
  lemma SendsOnlyTheStoredRequest(t: Timing, s: State, s': State, uid: nat)
    requires t.Bounded() && Reachable(t, s) && Next(t, s, s') && uid in s'.net && uid !in s.net
    ensures s.disk.intent.Some?
    ensures s'.net[uid] == CreateMessage(s.disk.intent.value.key, s.disk.intent.value.payload, s.now)
  {
    NextKeeps(t, s, s');
  }

  /** The intent goes away only once the sentinel is durable, or after the server definitely accepted nothing
      and nothing is under way. */
  lemma IntentDropsOnlyWhenSafe(t: Timing, s: State, s': State)
    requires t.Bounded() && Reachable(t, s) && Next(t, s, s')
    requires s.disk.intent.Some? && s'.disk.intent != s.disk.intent
    ensures s'.disk.intent.None?
    ensures s.disk.sentinel.Some?
            || (s.process.Running? && s.process.task.Refused? && s.net == map[] && s.account.accepted == [])
  {
    NextKeeps(t, s, s');
  }

  /** A journal is never overwritten by an unrelated grant, and it goes away only when its family is revoked. */
  lemma JournalKeepsItsFamily(t: Timing, s: State, s': State)
    requires t.Bounded() && Reachable(t, s) && Next(t, s, s') && s.disk.journal.Some?
    ensures s.completing.Some? && s'.completing == s.completing
    ensures s'.disk.journal.Some? ==> s'.oauth.Issued(s'.disk.journal.value.refresh, RefreshToken, s.completing.value)
    ensures s'.disk.journal.None? ==> s'.disk.sentinel.Some? && s'.oauth.Revoked(s.completing.value)
  {
    NextKeeps(t, s, s');
  }

  /** The sentinel, once written, is never changed or removed, and with it the completing family stays the same. */
  lemma SentinelIsPermanent(t: Timing, s: State, s': State)
    requires t.Bounded() && Reachable(t, s) && Next(t, s, s') && s.disk.sentinel.Some?
    ensures s'.disk.sentinel == s.disk.sentinel && s'.completing == s.completing && s'.keys == s.keys
  {
    NextKeeps(t, s, s');
  }

  // ---------------------------------------------------------------- error returns

  /**
   After an error return of a run that captured a grant, an intent, a journal, a sent revocation or a dead grant
   remains exactly when the cleanup could read the control root, or the intent is there, or the grant is dead.
   */
  lemma ErrorReturnKeepsAuthority(t: Timing, s: State)
    requires t.Bounded() && Reachable(t, s) && s.process.Exited?
    ensures var p := s.process;
            AuthorityKept(s, p.family, p.revokeSent)
            <==> (!p.existsFailed || s.disk.intent.Some? || s.oauth.Dead(p.family, s.now))
  {
    ReachableInv(t, s);
  }

  /**
   What lasts: an intent, a journal or a dead grant. A sent revocation is not enough when the call was lost, and so
   after an error return nothing lasts exactly when there is no intent, the grant lives, and the cleanup could not
   read the control root or its revocation did not take effect.
   */
  lemma WhatLastsAfterAnErrorReturn(t: Timing, s: State)
    requires t.Bounded() && Reachable(t, s) && s.process.Exited?
    ensures var p := s.process;
            LastingAuthority(s, p.family)
            <==> s.disk.intent.Some? || s.oauth.Dead(p.family, s.now)
                 || !(p.existsFailed || (p.revokeSent && !p.revokeTook))
  {
    ReachableInv(t, s);
  }

  /** The same, before the cleanup: with no intent and a live grant, it must read the root and its revocation must
      arrive. */
  lemma CleanupLasts(t: Timing, s: State, existsFails: bool, took: bool)
    requires t.Bounded() && Reachable(t, s) && s.process.Cleaning?
    ensures CleanupStep(s, existsFails, took).Some?
    ensures LastingAuthority(CleanupStep(s, existsFails, took).value, s.process.run.family)
            <==> s.disk.intent.Some? || s.oauth.Dead(s.process.run.family, s.now) || (!existsFails && took)
  {
    ReachableInv(t, s);
    AnyTokenKillsItsFamily(s.oauth, s.oauth, s.process.run.captured.refresh, s.process.run.family, s.now);
  }

  // ---------------------------------------------------------------- witnesses

  lemma {:induction false} Extend(t: Timing, s: State, a: Action)
    requires Reachable(t, s) && Step(t, s, a).Some?
    ensures Reachable(t, Step(t, s, a).value)
  {
    var states, actions :| IsTrace(t, states, actions) && Starts(states[0]) && states[|actions|] == s;
    var states', actions' := states + [Step(t, s, a).value], actions + [a];
    forall i | 0 <= i < |actions'|
      ensures Step(t, states'[i], actions'[i]) == Some(states'[i + 1])
    {
      if i < |actions| { assert Step(t, states[i], actions[i]) == Some(states[i + 1]); }
    }
    assert IsTrace(t, states', actions') && states'[0] == states[0] && states'[|actions'|] == Step(t, s, a).value;
  }

  lemma InitialReachable(t: Timing, now: Time, resumes: set<ResumeId>)
    ensures Reachable(t, Initial(now, NO_GRANTS, resumes))
  {
    var s := Initial(now, NO_GRANTS, resumes);
    assert NO_GRANTS.Valid() && NO_GRANTS.SweptInTime(now);
    assert Starts(s);
    assert IsTrace(t, [s], []);
  }

  const NO_GRANTS := OAuth(map[], map[], {})
  const PROMPT := Timing(0, 0, 0, 0)

  /** A run connects and fails before any create. */
  lemma FailsBeforeAnyCreate() returns (s: State)
    ensures Reachable(PROMPT, s) && s.process == Cleaning(FIRST_RUN) && s.now == 0
    ensures s.disk == Disk(None, None, None) && s.oauth == NO_GRANTS.Grant(7, 1, 2, 0)
  {
    hide Reachable;
    var s0 := Initial(0, NO_GRANTS, {});
    s := s0.(oauth := NO_GRANTS.Grant(7, 1, 2, 0), process := Cleaning(FIRST_RUN));
    InitialReachable(PROMPT, 0, {});
    assert Three(s0, Start, Connect(7, 1, 2, 0), Fail, s);
    Onward(s0, Start, Connect(7, 1, 2, 0), Fail, s);
  }

  /** Both exceptions are real. The cleanup cannot read the control root, and the live grant is named nowhere. */
  lemma FailedExistsLosesTheGrant()
    ensures exists s :: Reachable(PROMPT, s) && s.process == Exited(7, false, false, true)
                        && !AuthorityKept(s, 7, false) && !LastingAuthority(s, 7)
  {
    hide Reachable;
    var s0 := FailsBeforeAnyCreate();
    var s := s0.(process := Exited(7, false, false, true));
    assert Step(PROMPT, s0, Cleanup(true, false)) == Some(s);
    Extend(PROMPT, s0, Cleanup(true, false));
    assert !s.oauth.Dead(7, s.now);
  }

  /** Or its revocation is lost, with the same effect: sent, but without effect. */
  lemma LostRevokeLosesTheGrant()
    ensures exists s :: Reachable(PROMPT, s) && s.process == Exited(7, true, false, false)
                        && AuthorityKept(s, 7, true) && !LastingAuthority(s, 7)
  {
    hide Reachable;
    var s0 := FailsBeforeAnyCreate();
    var s := s0.(process := Exited(7, true, false, false));
    assert Step(PROMPT, s0, Cleanup(false, false)) == Some(s);
    Extend(PROMPT, s0, Cleanup(false, false));
    assert !s.oauth.Dead(7, s.now);
  }

  // ---------------------------------------------------------------- completion happens

  /** Three steps in a row. */
  ghost predicate Three(s: State, a: Action, b: Action, c: Action, s': State) {
    && Step(PROMPT, s, a).Some?
    && var s1 := Step(PROMPT, s, a).value;
       && Step(PROMPT, s1, b).Some?
       && Step(PROMPT, Step(PROMPT, s1, b).value, c) == Some(s')
  }

  lemma Onward(s: State, a: Action, b: Action, c: Action, s': State)
    requires Reachable(PROMPT, s)
    ensures Three(s, a, b, c, s') ==> Reachable(PROMPT, s')
  {
    hide Reachable;
    if Three(s, a, b, c, s') {
      var s1 := Step(PROMPT, s, a).value;
      Extend(PROMPT, s, a);
      Extend(PROMPT, s1, b);
      Extend(PROMPT, Step(PROMPT, s1, b).value, c);
    }
  }

  const FIRST := GrantSnapshot(1, 2, 0, 0)
  const SECOND := GrantSnapshot(3, 4, 0, 0)
  const STORED := Intent(9, 3, {5}, 0)
  const FIRST_RUN := Run(7, FIRST, FIRST)
  const SECOND_RUN := Run(8, SECOND, SECOND)

  /** A first run reads the account. */
  lemma FirstReads() returns (s: State)
    ensures Reachable(PROMPT, s)
    ensures s == Initial(0, NO_GRANTS.Grant(7, 1, 2, 0),
            {5}).(process := Running(FIRST_RUN, Reading(None, {5}, 0, 0)))
  {
    hide Reachable;
    var s0 := Initial(0, NO_GRANTS, {5});
    s := Initial(0, NO_GRANTS.Grant(7, 1, 2, 0),
        {5}).(process := Running(FIRST_RUN, Reading(None, {5}, 0, 0)));
    assert Three(s0, Start, Connect(7, 1, 2, 0), ReadAccount(0), s);
    InitialReachable(PROMPT, 0, {5});
    Onward(s0, Start, Connect(7, 1, 2, 0), ReadAccount(0), s);
  }

  /** Its create is sent. */
  lemma FirstSends() returns (s: State)
    ensures Reachable(PROMPT, s)
    ensures s == Initial(0, NO_GRANTS.Grant(7, 1, 2, 0), {5}).(
                   net := map[0 := CreateMessage(9, 3, 0)], nextUid := 1, keys := {9}, live := Some(STORED),
                   disk := Disk(Some(STORED), None, None), process := Running(FIRST_RUN, Awaiting(STORED, 0, true)))
  {
    hide Reachable;
    var s0 := FirstReads();
    s := s0.(net := map[0 := CreateMessage(9, 3, 0)], nextUid := 1, keys := {9}, live := Some(STORED),
             disk := Disk(Some(STORED), None, None), process := Running(FIRST_RUN, Awaiting(STORED, 0, true)));
    SendsStored(s0, s);
    Onward(s0, Stamp, PersistIntent(9, 3, Done), Send, s);
  }

  lemma SendsStored(s0: State, s: State)
    requires s0.now == 0 && s0.net == map[] && s0.nextUid == 0 && s0.keys == {} && s0.disk == Disk(None, None, None)
    requires s0.process == Running(FIRST_RUN, Reading(None, {5}, 0, 0))
    requires s == s0.(net := map[0 := CreateMessage(9, 3, 0)], nextUid := 1, keys := {9}, live := Some(STORED),
                      disk := Disk(Some(STORED), None, None), process := Running(FIRST_RUN, Awaiting(STORED, 0, true)))
    ensures Three(s0, Stamp, PersistIntent(9, 3, Done), Send, s)
  {
    var s1 := s0.(process := Running(FIRST_RUN, Stamped(None, {5}, 0, 0)));
    assert Step(PROMPT, s0, Stamp) == Some(s1);
    var s2 := s1.(keys := {9}, disk := Disk(Some(STORED), None, None), live := Some(STORED),
                  process := Running(FIRST_RUN, SendReady(STORED, CREATE_SEND_WINDOW, true)));
    assert s1.keys + {9} == {9};
    assert Step(PROMPT, s1, PersistIntent(9, 3, Done)) == Some(s2);
    assert s2.net[s2.nextUid := CreateMessage(9, 3, 0)] == s.net;
  }

  /** It crashes, the request arrives all the same, and a second process starts. */
  lemma SecondStarts() returns (s: State)
    ensures Reachable(PROMPT, s)
    ensures s.now == 0 && s.oauth == NO_GRANTS.Grant(7, 1, 2, 0)
    ensures s.account.resumes == {5, 6} && s.account.accepted == [Acceptance(9, 3, 6, 0)]
    ensures s.disk == Disk(Some(STORED), None, None) && s.process == Connecting(Some(STORED))
  {
    hide Reachable;
    var s0 := FirstSends();
    var s1 := s0.(process := Idle);
    assert Step(PROMPT, s0, Crash) == Some(s1);
    var s2 := DeliverStep(PROMPT, s1, 0, Accept(6)).value;
    assert Step(PROMPT, s1, Deliver(0, Accept(6))) == Some(s2);
    s := s2.(process := Connecting(Some(STORED)));
    assert Step(PROMPT, s2, Start) == Some(s);
    Onward(s0, Crash, Deliver(0, Accept(6)), Start, s);
  }

  /** It connects and reads the listing. */
  lemma SecondReads() returns (s: State)
    ensures Reachable(PROMPT, s)
    ensures s.now == 0 && s.oauth == NO_GRANTS.Grant(7, 1, 2, 0).Grant(8, 3, 4, 0)
    ensures s.account.accepted == [Acceptance(9, 3, 6, 0)]
    ensures s.disk == Disk(Some(STORED), None, None)
            && s.process == Running(SECOND_RUN, Stamped(Some(STORED), {5, 6}, 0, 0))
  {
    hide Reachable;
    var s0 := SecondStarts();
    var s1 := s0.(oauth := s0.oauth.Grant(8, 3, 4, 0), process := Running(SECOND_RUN, Ready(Some(STORED))));
    assert Step(PROMPT, s0, Connect(8, 3, 4, 0)) == Some(s1);
    var s2 := s1.(process := Running(SECOND_RUN, Reading(Some(STORED), {5, 6}, 0, 0)));
    assert {5, 6} - {5} == {6};
    assert Step(PROMPT, s1, ReadAccount(0)) == Some(s2);
    s := s2.(process := Running(SECOND_RUN, Stamped(Some(STORED), {5, 6}, 0, 0)));
    assert Step(PROMPT, s2, Stamp) == Some(s);
    Onward(s0, Connect(8, 3, 4, 0), ReadAccount(0), Stamp, s);
  }

  /** It accepts the listed resume, verifies the account and prepares its journal. */
  lemma SecondVerifies() returns (s: State)
    ensures Reachable(PROMPT, s)
    ensures s.now == 0 && s.oauth == NO_GRANTS.Grant(7, 1, 2, 0).Grant(8, 3, 4, 0)
    ensures s.account.accepted == [Acceptance(9, 3, 6, 0)]
    ensures s.disk == Disk(Some(STORED), None, None)
            && s.process == Closing(JournalFor(SECOND, 0), Persist, Some(SECOND_RUN))
  {
    hide Reachable;
    var s0 := SecondReads();
    var s1 := s0.(process := Running(SECOND_RUN, Bound(STORED)));
    assert {5, 6} - {5} == {6};
    assert Step(PROMPT, s0, AcceptListed) == Some(s1);
    var s2 := s1.(process := Running(SECOND_RUN, Verified(STORED, 0)));
    assert Step(PROMPT, s1, VerifyFinal(0)) == Some(s2);
    s := s2.(process := Closing(JournalFor(SECOND, 0), Persist, Some(SECOND_RUN)));
    assert Step(PROMPT, s2, PrepareJournal(true)) == Some(s);
    Onward(s0, AcceptListed, VerifyFinal(0), PrepareJournal(true), s);
  }

  /** Journal, sentinel, and the intent goes. */
  lemma SecondSettles() returns (s: State)
    ensures Reachable(PROMPT, s)
    ensures s.now == 0 && s.oauth == NO_GRANTS.Grant(7, 1, 2, 0).Grant(8, 3, 4, 0)
    ensures s.account.accepted == [Acceptance(9, 3, 6, 0)] && s.completing == Some(8)
    ensures var j := JournalFor(SECOND, 0);
            s.disk == Disk(None, Some(j), Some(0)) && s.process == Closing(j, Inspect, Some(SECOND_RUN))
  {
    hide Reachable;
    var j := JournalFor(SECOND, 0);
    var s0 := SecondVerifies();
    var s1 := s0.(disk := s0.disk.(journal := Some(j)), completing := Some(8),
        process := Closing(j, EnsureSentinel, Some(SECOND_RUN)));
    assert Step(PROMPT, s0, Write(Done)) == Some(s1);
    var s2 := s1.(disk := s1.disk.(sentinel := Some(0)), process := Closing(j, DropIntent, Some(SECOND_RUN)));
    assert Step(PROMPT, s1, Write(Done)) == Some(s2);
    s := s2.(disk := s2.disk.(intent := None), process := Closing(j, Inspect, Some(SECOND_RUN)));
    assert Step(PROMPT, s2, Write(Done)) == Some(s);
    Onward(s0, Write(Done), Write(Done), Write(Done), s);
  }

  /** The target is inspected, the grant revoked, and the proof observed. */
  lemma SecondProves() returns (s: State)
    ensures Reachable(PROMPT, s)
    ensures s.oauth == NO_GRANTS.Grant(7, 1, 2, 0).Grant(8, 3, 4, 0).RevokeFamily(8)
    ensures s.account.accepted == [Acceptance(9, 3, 6, 0)] && s.completing == Some(8)
    ensures var j := JournalFor(SECOND, 0);
            s.disk == Disk(None, Some(j), Some(0)) && s.process == Closing(j, FinishSentinel, Some(SECOND_RUN))
  {
    hide Reachable;
    var j := JournalFor(SECOND, 0);
    var s0 := SecondSettles();
    var s1 := s0.(process := Closing(j, SdkRevoke, Some(SECOND_RUN)));
    assert Step(PROMPT, s0, InspectTarget) == Some(s1);
    var s2 := s1.(oauth := s1.oauth.RevokeFamily(8), process := Closing(j, SdkProbe, Some(SECOND_RUN)));
    assert Step(PROMPT, s1, RevokeCall(true)) == Some(s2);
    s := s2.(process := Closing(j, FinishSentinel, Some(SECOND_RUN)));
    assert Step(PROMPT, s2, SdkProof(0, true)) == Some(s);
    Onward(s0, InspectTarget, RevokeCall(true), SdkProof(0, true), s);
  }

  /** Completion is reachable: one resume, a permanent sentinel, a dead grant and no other file. */
  lemma CompletionIsReachable()
    ensures exists s :: Reachable(PROMPT, s) && s.process.Idle? && |s.account.accepted| == 1
                        && s.disk == Disk(None, None, Some(0)) && s.completing == Some(8) && s.oauth.Revoked(8)
  {
    hide Reachable;
    var j := JournalFor(SECOND, 0);
    var s0 := SecondProves();
    var s1 := s0.(process := Closing(j, FinishJournal, Some(SECOND_RUN)));
    assert Step(PROMPT, s0, Write(Done)) == Some(s1);
    var s2 := s1.(disk := s1.disk.(journal := None), process := Closing(j, FinishIntent, Some(SECOND_RUN)));
    assert Step(PROMPT, s1, Write(Done)) == Some(s2);
    var s3 := s2.(process := Idle);
    assert Step(PROMPT, s2, Write(Done)) == Some(s3);
    Onward(s0, Write(Done), Write(Done), Write(Done), s3);
    assert s3.disk == Disk(None, None, Some(0));
  }
}
