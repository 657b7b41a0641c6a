/**
 The revocation loop as it runs, with whatever else happens between its calls, and the whole recovery path
 around it. Every effect is a step of the system, so what holds over all runs holds of this code.
 */
module Recovery {
  import opened Clock
  import opened OAuthServer
  import opened Options
  import opened OwnerWorkflow
  import opened OwnerWorkflowSafety
  import opened OwnerWorkflowTheorems

  /** What the transport answers to a refresh. */
  datatype RefreshAnswer = RefreshAnswer(access: Token, refresh: Token, date: Time)

  /** The answers of one round, each possibly lost, and what the environment does before each of them. */
  datatype Round = Round(
    revokeTook: bool, probe: Option<Time>, refresh: RefreshAnswer, refreshReceived: bool, write: Io,
    between: nat -> seq<Action>)

  /** The environment on its own: time, the owner, the network. A crash ends the process instead. */
  predicate Interferes(a: Action) {
    a.Tick? || a.OwnerEdits? || a.OwnerRevokes? || a.Sweep? || a.Deliver? || a.DropMessage?
  }

  /** The time that passes during these actions. */
  function Elapsed(actions: seq<Action>): (time: Time)
    ensures time >= 0
  {
    if actions == [] then 0
    else
      var last := actions[|actions| - 1];
      Elapsed(actions[..|actions| - 1]) + if last.Tick? && 0 <= last.elapsed then last.elapsed else 0
  }

  /** When the probe of a round is asked for that starts now, and when its refresh. */
  function ProbedAt(now: Time, r: Round): Time { now + Elapsed(r.between(0)) + Elapsed(r.between(1)) }

  function RefreshedAt(now: Time, r: Round): Time { ProbedAt(now, r) + Elapsed(r.between(2)) }

  /** The probe of this round is answered before this cutoff. */
  predicate Probes(t: Timing, now: Time, r: Round, until: Time) {
    r.probe.Some? && Dates(t, ProbedAt(now, r), r.probe.value) && r.probe.value < until
  }

  /** A refresh that is asked for now is answered in time, with tokens that are not taken. */
  predicate Refreshes(t: Timing, now: Time, taken: set<Token>, j: Journal, answer: RefreshAnswer, received: bool) {
    && answer.access !in taken && answer.refresh !in taken && answer.access != answer.refresh
    && Dates(t, now, answer.date) && received && answer.date < j.refreshUntil
  }

  /** The probe is answered before the refresh cutoff, and the refresh in time. */
  predicate ProbesAndRefreshes(t: Timing, now: Time, taken: set<Token>, j: Journal, r: Round) {
    Probes(t, now, r, j.refreshUntil) && Refreshes(t, RefreshedAt(now, r), taken, j, r.refresh, r.refreshReceived)
  }

  /** This round proves the revocation: its revoke takes effect, and its probe, or its refresh, is answered in time. */
  predicate SettlesAtOnce(t: Timing, now: Time, taken: set<Token>, j: Journal, r: Round) {
    r.revokeTook && (Probes(t, now, r, j.accessUntil) || ProbesAndRefreshes(t, now, taken, j, r))
  }

  /** When the next round starts after a rotation, and the journal and the tokens that it starts with. */
  function NextRoundAt(now: Time, r: Round): Time { RefreshedAt(now, r) + Elapsed(r.between(3)) }

  function NextTaken(taken: set<Token>, r: Round): set<Token> { taken + {r.refresh.access, r.refresh.refresh} }

  function NextJournal(j: Journal,
          r: Round): Journal { Successor(j, r.refresh.access, r.refresh.refresh, r.refresh.date) }

  /** This round gets as far as a written successor, unless it proves the revocation by itself. */
  predicate GoesOn(t: Timing, now: Time, taken: set<Token>, j: Journal, r: Round) {
    && ProbesAndRefreshes(t, now, taken, j, r) && r.probe.value >= j.accessUntil && r.write.Done?
  }

  /** The first round proves the revocation, or it rotates and the second one does. */
  predicate Settles(t: Timing, now: Time, taken: set<Token>, j: Journal, rounds: nat -> Round) {
    || SettlesAtOnce(t, now, taken, j, rounds(0))
    || (GoesOn(t, now, taken, j, rounds(0))
        && SettlesAtOnce(t, NextRoundAt(now, rounds(0)), NextTaken(taken, rounds(0)), NextJournal(j, rounds(0)),
            rounds(1)))
  }

  /** The three writes of a finish succeed. */
  predicate AllDone(writes: nat -> Io) { writes(0).Done? && writes(1).Done? && writes(2).Done? }

  class Runner {
    const t: Timing
    var s: State

    ghost predicate Valid()
      reads this
    {
      t.Bounded() && Reachable(t, s)
    }

    constructor (t: Timing, s: State)
      requires t.Bounded() && Reachable(t, s)
      ensures Valid() && this.t == t && this.s == s
    {
      this.t, this.s := t, s;
    }

    method Act(a: Action) returns (ok: bool)
      requires Valid()
      modifies this`s
      ensures Valid() && ok == Step(t, old(s), a).Some? && s == if ok then Step(t, old(s), a).value else old(s)
    {
      var next := Step(t, s, a);
      if next.None? { return false; }
      Extend(t, s, a);
      s := next.value;
      return true;
    }

    /** The environment leaves the process, its files and its tokens alone. */
    method Interfere(actions: seq<Action>)
      requires Valid()
      modifies this`s
      ensures Valid() && Undisturbed(old(s), s) && s.now == old(s.now) + Elapsed(actions)
    {
      for i := 0 to |actions|
        invariant Valid() && Undisturbed(old(s), s) && s.now == old(s.now) + Elapsed(actions[..i])
      {
        assert actions[..i + 1][..i] == actions[..i];
        if Interferes(actions[i]) {
          EnvironmentKeeps(t, s, actions[i]);
          var _ := Act(actions[i]);
        }
      }
      assert actions[..|actions|] == actions;
    }

    method GiveUpHere()
      requires Valid() && s.process.Closing?
      modifies this`s
      ensures Valid() && s.process.Exited? && s == old(s).(process := s.process)
    {
      var _ := Act(Fail);
    }

    method Revoke(j: Journal, round: nat, session: Option<Run>, took: bool)
      requires Valid() && s.process == Closing(j, Revoking(round), session)
      modifies this`s
      ensures Valid() && s.process == Closing(j, Probing(round), session) && s.disk == old(s.disk)
      ensures s.now == old(s.now) && s.oauth.tokens == old(s.oauth.tokens)
      ensures took ==> s.completing.Some? && s.oauth.Dead(s.completing.value, s.now)
    {
      hide Reachable;
      RevokingKills(t, s);
      var _ := Act(RevokeCall(took));
    }

    /** The probe with the journaled access token: its status, when it is a dated answer. */
    method ProbeOnce(j: Journal, round: nat, session: Option<Run>, answer: Option<Time>)
      returns (unauthorized: Option<bool>)
      requires Valid() && s.process == Closing(j, Probing(round), session)
      modifies this`s
      ensures Valid() && s.disk == old(s.disk)
      ensures s.now == old(s.now) && s.oauth == old(s.oauth) && s.completing == old(s.completing)
      ensures unauthorized.None? ==> s.process.Exited?
      ensures unauthorized.Some? <==> answer.Some? && Dates(t, s.now, answer.value)
      ensures unauthorized.Some? ==>
                && unauthorized.value == !s.oauth.Accepts(j.access, s.now)
                && s.process == if answer.value < j.accessUntil && unauthorized.value then Closing(j, Reload, session)
                                else if answer.value < j.accessUntil || j.refreshUntil <= answer.value then
                                  Stop(s, j).process
                                else Closing(j, Refreshing(round), session)
    {
      if answer.None? { GiveUpHere(); return None; }
      var denied := !s.oauth.Accepts(j.access, s.now);
      var ok := Act(OwnerWorkflow.Action.Probe(answer.value));
      if !ok { GiveUpHere(); return None; }
      return Some(denied);
    }

    /** One refresh: refused, rotated, or unclear. */
    method RefreshOnce(j: Journal, round: nat, session: Option<Run>, answer: RefreshAnswer, received: bool)
      returns (dead: Option<bool>)
      requires Valid() && s.process == Closing(j, Refreshing(round), session)
      modifies this`s
      ensures Valid() && s.disk == old(s.disk)
      ensures dead.None? ==> s.process.Exited?
      ensures dead.Some? <==> Refreshes(t, old(s.now), old(s.oauth.tokens.Keys), j, answer, received)
      ensures dead.Some? ==>
                dead.value
                == old(s).oauth.RefreshWith(j.refresh, answer.access, answer.refresh, old(s).now).1.InvalidGrant?
      ensures dead.Some? && dead.value ==> s.process == Closing(j, Reload, session)
      ensures dead == Some(false) ==>
                s.now == old(s.now) && s.oauth.tokens.Keys == old(s.oauth.tokens.Keys) + {answer.access, answer.refresh}
      ensures dead.Some? && !dead.value ==>
                var successor := Successor(j, answer.access, answer.refresh, answer.date);
                s.process == Closing(j, Replacing(round, successor), session)
    {
      var (_, result) := s.oauth.RefreshWith(j.refresh, answer.access, answer.refresh, s.now);
      var ok := Act(OwnerWorkflow.Action.Refresh(answer.access, answer.refresh, answer.date, received));
      if !ok { GiveUpHere(); return None; }
      if !received || j.refreshUntil <= answer.date { return None; }
      return Some(result.InvalidGrant?);
    }

    /** The successor pair replaces the journal before it is used, and is used at most once. */
    method Replace(j: Journal, round: nat, successor: Journal, session: Option<Run>, write: Io) returns (ok: bool)
      requires Valid() && s.process == Closing(j, Replacing(round, successor), session)
      modifies this`s
      ensures Valid() && s.disk.(journal := old(s.disk.journal)) == old(s.disk)
      ensures s.now == old(s.now) && s.oauth == old(s.oauth)
      ensures s.disk.journal == if write.Took() then Some(successor) else old(s.disk.journal)
      ensures ok == write.Done?
      ensures if ok && round == 0 then s.process == Closing(successor, Revoking(1), session) else s.process.Exited?
    {
      var _ := Act(Write(write));
      return write.Done?;
    }

    /**
     Revoke, probe, and refresh where the probe proves nothing, at most twice. Success means that the journaled
     family is revoked; any other end leaves a journal that can still kill it. A first round whose revoke takes
     effect and whose answers are in time always succeeds, and so does a second one after a rotation.
     */
    method SettleRevocation(rounds: nat -> Round) returns (proved: bool)
      requires Valid() && s.process.Closing? && s.process.stage == Revoking(0) && s.disk.journal.Some?
      modifies this`s
      ensures Valid() && s.disk.journal.Some? && s.disk.(journal := old(s.disk.journal)) == old(s.disk)
      ensures proved ==> s.process.Closing? && s.process.stage.Reload? && s.process.session == old(s.process.session)
      ensures proved ==> s.completing.Some? && s.oauth.Revoked(s.completing.value)
      ensures !proved ==> s.process.Exited?
      ensures Settles(t, old(s.now), old(s.oauth.tokens.Keys), old(s.process.journal), rounds) ==> proved
    {
      var journal, session := s.process.journal, s.process.session;
      var round := 0;
      while round < MAX_REVOCATION_ROUNDS
        invariant Valid() && round <= MAX_REVOCATION_ROUNDS
        invariant s.disk.journal.Some? && s.disk.(journal := old(s.disk.journal)) == old(s.disk)
        invariant round == 0 ==> journal == old(s.process.journal) && s == old(s)
        invariant round > 0 && Settles(t, old(s.now), old(s.oauth.tokens.Keys), old(s.process.journal), rounds) ==>
                    round == 1 && SettlesAtOnce(t, s.now, s.oauth.tokens.Keys, journal, rounds(1))
        invariant if round < MAX_REVOCATION_ROUNDS then s.process == Closing(journal, Revoking(round), session)
                  else s.process.Exited?
      {
        var answers := rounds(round);
        var dead, successor := SettleRound(journal, round, session, answers);
        if dead.Some? && dead.value {
          SettledMeansRevoked(t, s);
          return true;
        }
        if dead.None? { return false; }
        Interfere(answers.between(3));
        var replaced := Replace(journal, round, successor, session, answers.write);
        if !replaced { return false; }
        journal := successor;
        round := round + 1;
      }
      return false;
    }

    /** One round up to its result: proved dead, unclear, or rotated. */
    method SettleRound(journal: Journal, round: nat, session: Option<Run>, answers: Round)
      returns (dead: Option<bool>, successor: Journal)
      requires Valid() && s.process == Closing(journal, Revoking(round), session)
      modifies this`s
      ensures Valid() && s.disk == old(s.disk)
      ensures dead.None? ==> s.process.Exited?
      ensures dead.Some? && dead.value ==> s.process == Closing(journal, Reload, session)
      ensures dead.Some? && !dead.value ==> s.process == Closing(journal, Replacing(round, successor), session)
      ensures SettlesAtOnce(t, old(s.now), old(s.oauth.tokens.Keys), journal, answers) ==> dead == Some(true)
      ensures GoesOn(t, old(s.now), old(s.oauth.tokens.Keys), journal, answers) ==> dead.Some?
      ensures dead == Some(false) ==>
                && successor == NextJournal(journal, answers) && s.now == RefreshedAt(old(s.now), answers)
                && s.oauth.tokens.Keys == NextTaken(old(s.oauth.tokens.Keys), answers)
    {
      hide Reachable, Refreshes;
      successor := journal;
      Interfere(answers.between(0));
      Revoke(journal, round, session, answers.revokeTook);
      Interfere(answers.between(1));
      if answers.revokeTook { DeadIsRefused(t, s, 0, 0); }
      var unauthorized := ProbeOnce(journal, round, session, answers.probe);
      if unauthorized.None? { return None, successor; }
      var date := answers.probe.value;
      if date < journal.accessUntil && unauthorized.value { return Some(true), successor; }
      if date < journal.accessUntil || journal.refreshUntil <= date { return None, successor; }
      Interfere(answers.between(2));
      if answers.revokeTook { DeadIsRefused(t, s, answers.refresh.access, answers.refresh.refresh); }
      dead := RefreshOnce(journal, round, session, answers.refresh, answers.refreshReceived);
      successor := Successor(journal, answers.refresh.access, answers.refresh.refresh, answers.refresh.date);
    }

    /** Proof first, then the sentinel, then the journal goes, and the intent last. */
    method FinishRevocation(writes: nat -> Io) returns (done: bool)
      requires Valid() && s.process.Closing? && s.process.stage.FinishSentinel? && s.disk.journal.Some?
      modifies this`s
      ensures Valid()
      ensures done ==> s.process.Idle? && s.disk.sentinel.Some? && s.disk.journal.None? && s.disk.intent.None?
      ensures done ==> s.completing.Some? && s.oauth.Revoked(s.completing.value)
      ensures !done ==> s.process.Exited? && (s.disk.sentinel.Some? || s.disk.journal.Some?)
      ensures AllDone(writes) ==> done
    {
      done := WriteAt(FinishSentinel, writes(0));
      if !done { return; }
      done := WriteAt(FinishJournal, writes(1));
      if !done { return; }
      done := WriteAt(FinishIntent, writes(2));
      if done { CompletedMeansRevoked(t, s); }
    }

    /** From start to end with a journal on disk: nothing but sentinel, intent, revocation and journal is touched. */
    method RecoverRevocationOnly(ensure: Io, drop: Io, rounds: nat -> Round, writes: nat -> Io) returns (done: bool)
      requires Valid() && s.process.Idle? && s.disk.journal.Some?
      modifies this`s
      ensures Valid() && (s.disk.sentinel.Some? || s.disk.journal.Some?)
      ensures done ==> s.process.Idle? && s.disk.sentinel.Some? && s.disk.journal.None? && s.disk.intent.None?
      ensures done ==> s.completing.Some? && s.oauth.Revoked(s.completing.value)
      ensures !done ==> s.process.Exited?
      ensures ensure.Done? && drop.Done? && AllDone(writes)
              && Settles(t, old(s.now), old(s.oauth.tokens.Keys), old(s.disk.journal.value), rounds)
              ==> done
    {
      var _ := Act(OwnerWorkflow.Action.Start);
      done := PrepareRecovery(ensure, drop);
      if !done { return; }
      done := SettleRevocation(rounds);
      if !done { return; }
      LoadJournalAgain();
      done := FinishRevocation(writes);
    }

    /** The journal as it is after the rotations. */
    method LoadJournalAgain()
      requires Valid() && s.process.Closing? && s.process.stage.Reload? && s.disk.journal.Some?
      modifies this`s
      ensures Valid() && s.process.Closing? && s.process.stage.FinishSentinel? && s.disk == old(s.disk)
    {
      var _ := Act(LoadAgain);
    }

    /** Sentinel first, then the inert intent goes, before anything is revoked. */
    method PrepareRecovery(ensure: Io, drop: Io) returns (ok: bool)
      requires Valid() && s.disk.journal.Some? && s.process == Closing(s.disk.journal.value, EnsureSentinel, None)
      modifies this`s
      ensures Valid() && s.disk.journal == old(s.disk.journal)
      ensures if ok then s.process == Closing(s.disk.journal.value, Revoking(0), None) else s.process.Exited?
      ensures s.now == old(s.now) && s.oauth == old(s.oauth) && (ensure.Done? && drop.Done? ==> ok)
    {
      ok := EnsureSentinelFirst(s.disk.journal.value, ensure);
      if ok { ok := DropIntentNext(s.disk.journal.value, drop); }
    }

    method EnsureSentinelFirst(j: Journal, io: Io) returns (ok: bool)
      requires Valid() && s.process == Closing(j, EnsureSentinel, None)
      modifies this`s
      ensures Valid() && s.disk.journal == old(s.disk.journal)
      ensures if ok then s.process == Closing(j, DropIntent, None) else s.process.Exited?
      ensures s.now == old(s.now) && s.oauth == old(s.oauth) && (io.Done? ==> ok)
    {
      if s.disk.sentinel.Some? { SentinelNeverConflicts(t, s); }
      var _ := Act(Write(io));
      return !s.process.Exited?;
    }

    method DropIntentNext(j: Journal, io: Io) returns (ok: bool)
      requires Valid() && s.process == Closing(j, DropIntent, None)
      modifies this`s
      ensures Valid() && s.disk.journal == old(s.disk.journal)
      ensures if ok then s.process == Closing(j, Revoking(0), None) else s.process.Exited?
      ensures s.now == old(s.now) && s.oauth == old(s.oauth) && (io.Done? ==> ok)
    {
      var _ := Act(Write(io));
      return !s.process.Exited?;
    }

    /** One durable write of the finish. */
    method WriteAt(stage: Stage, io: Io) returns (ok: bool)
      requires Valid() && s.process.Closing? && s.process.stage == stage
      requires stage.FinishSentinel? || stage.FinishJournal? || stage.FinishIntent?
      requires stage.FinishSentinel? ==> s.disk.journal.Some?
      requires !stage.FinishSentinel? ==> s.disk.sentinel.Some?
      modifies this`s
      ensures Valid() && (s.disk.sentinel.Some? || s.disk.journal.Some?)
      ensures ok && stage.FinishSentinel? ==>
              s.process.Closing? && s.process.stage.FinishJournal? && s.disk.sentinel.Some?
      ensures ok && stage.FinishJournal? ==>
              s.process.Closing? && s.process.stage.FinishIntent? && s.disk.sentinel.Some? && s.disk.journal.None?
      ensures ok && stage.FinishIntent? ==> s.process.Idle? && s.disk == old(s.disk).(intent := None)
      ensures !ok ==> s.process.Exited?
      ensures io.Done? ==> ok
    {
      if stage.FinishSentinel? && s.disk.sentinel.Some? { SentinelNeverConflicts(t, s); }
      var _ := Act(Write(io));
      ok := !s.process.Exited?;
    }
  }

  lemma {:induction false} EnvironmentKeeps(t: Timing, s: State, a: Action)
    requires Interferes(a)
    ensures Step(t, s, a).Some? ==>
            Undisturbed(s, Step(t, s, a).value) && Step(t, s, a).value.now == s.now + Elapsed([a])
    ensures Step(t, s, a).None? ==> Elapsed([a]) == 0
  {
    assert [a][..0] == [];
  }

  /** Only the server's account, the network, the clock and revocations may have changed. */
  ghost predicate Undisturbed(a: State, b: State) {
    && b.process == a.process && b.disk == a.disk && b.completing == a.completing
    && b.oauth.tokens == a.oauth.tokens && Extends(a.oauth, b.oauth)
  }
}
