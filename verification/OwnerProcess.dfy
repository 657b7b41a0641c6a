/**
 The owner workflow in program order: dispatch, the create or its reconciliation, completion, and the
 deferred cleanup. Every call and every durable write is a step of the system.
 */
module OwnerProcess {
  import opened Clock
  import opened OAuthServer
  import opened Options
  import opened OwnerWorkflow
  import opened OwnerWorkflowSafety
  import opened OwnerWorkflowTheorems
  import opened Recovery
  import ReplayWindow

  /** What the run meets: dates, keys, write results, lost answers, and what happens in between. */
  datatype Answers = Answers(
    family: Family, access: Token, refresh: Token, connectDate: Time, listDate: Time, key: Key, payload: Payload,
    persist: Io, answered: bool, removeRefused: Io, finalDate: Time, useCurrent: bool, journal: Io, sentinel: Io,
    dropIntent: Io, inspected: bool, revokeTook: bool, proofDate: Time, proofSeen: bool, existsFails: bool,
    cleanupTook: bool, between: nat -> seq<Action>)

  datatype Result = Completed | AlreadyComplete | RevocationRecovered | Blocked

  /** One thing that goes on while a run waits: the environment, or the SDK refreshing its own token. */
  function Passed(t: Clock.Timing, s: State, a: Action): State {
    if (Interferes(a) || a.SdkRefresh?) && Step(t, s, a).Some? then Step(t, s, a).value else s
  }

  /** The state after a wait. What cannot happen at its turn does not. */
  function Played(t: Clock.Timing, s: State, actions: seq<Action>): State {
    if actions == [] then s else Passed(t, Played(t, s, actions[..|actions| - 1]), actions[|actions| - 1])
  }

  /** Two states that differ at most in what the run has in hand and on disk. */
  ghost predicate SameWorld(a: State, b: State) {
    && a.now == b.now && a.oauth == b.oauth && a.account == b.account && a.net == b.net && a.replies == b.replies
    && a.nextUid == b.nextUid && a.process.Running? && b.process.Running? && a.process.run == b.process.run
  }

  lemma {:induction false} PlayedKeeps(t: Clock.Timing, s: State, actions: seq<Action>)
    requires s.process.Running?
    ensures var later := Played(t, s, actions);
            && later.process.Running? && later.process.task == s.process.task && later.disk == s.disk
            && later.keys == s.keys
  {
    if actions != [] {
      PlayedKeeps(t, s, actions[..|actions| - 1]);
      var last := actions[|actions| - 1];
      if Interferes(last) || last.SdkRefresh? { PauseKeeps(t, Played(t, s, actions[..|actions| - 1]), last); }
    }
  }

  /** A wait goes the same way, whatever the run has in hand. */
  lemma {:induction false} PlayedSameWorld(t: Clock.Timing, a: State, b: State, actions: seq<Action>)
    requires SameWorld(a, b)
    ensures SameWorld(Played(t, a, actions), Played(t, b, actions))
  {
    if actions != [] {
      var before := actions[..|actions| - 1];
      PlayedSameWorld(t, a, b, before);
      PassedSameWorld(t, Played(t, a, before), Played(t, b, before), actions[|actions| - 1]);
    }
  }

  lemma {:induction false} PassedSameWorld(t: Clock.Timing, a: State, b: State, action: Action)
    requires SameWorld(a, b)
    ensures SameWorld(Passed(t, a, action), Passed(t, b, action))
  {
    hide OAuth.RefreshWith, OAuth.RevokeFamily, OAuth.Sweep, OAuth.Sweepable, Account.Create, Dates, Fresh;
    if action.SdkRefresh? { SdkPassedSameWorld(t, a, b, action); }
  }

  lemma SdkPassedSameWorld(t: Clock.Timing, a: State, b: State, action: Action)
    requires SameWorld(a, b) && action.SdkRefresh?
    ensures SameWorld(Passed(t, a, action), Passed(t, b, action))
  {
    hide OAuth.RefreshWith, Dates;
  }

  /** The environment, and the SDK refreshing its own token, while a run goes on. */
  method Pause(r: Runner, actions: seq<Action>)
    requires r.Valid() && r.s.process.Running?
    modifies r`s
    ensures r.Valid() && r.s == Played(r.t, old(r.s), actions)
    ensures r.s.process.Running? && r.s.process.task == old(r.s.process.task) && r.s.disk == old(r.s.disk)
    ensures r.s.keys == old(r.s.keys)
  {
    hide Step;
    PlayedKeeps(r.t, r.s, actions);
    for i := 0 to |actions|
      invariant r.Valid() && r.s == Played(r.t, old(r.s), actions[..i])
    {
      assert actions[..i + 1][..i] == actions[..i];
      if Interferes(actions[i]) || actions[i].SdkRefresh? { var _ := r.Act(actions[i]); }
    }
    assert actions[..|actions|] == actions;
  }

  lemma {:induction false} PauseKeeps(t: Clock.Timing, s: State, a: Action)
    requires (Interferes(a) || a.SdkRefresh?) && s.process.Running?
    ensures Step(t, s, a).Some? ==>
              && Step(t, s, a).value.process.Running? && Step(t, s, a).value.process.task == s.process.task
              && Step(t, s, a).value.disk == s.disk && Step(t, s, a).value.keys == s.keys
  {
    if Interferes(a) { EnvironmentKeeps(t, s, a); }
  }

  /** The same while a completing run closes: its session still sends requests, and may rotate its tokens. */
  method PauseClosing(r: Runner, actions: seq<Action>)
    requires r.Valid() && r.s.process.Closing? && r.s.process.session.Some?
    modifies r`s
    ensures r.Valid() && SameClosing(old(r.s), r.s) && r.s.now == old(r.s.now) + Elapsed(actions)
  {
    for i := 0 to |actions|
      invariant r.Valid() && SameClosing(old(r.s), r.s) && r.s.now == old(r.s.now) + Elapsed(actions[..i])
    {
      assert actions[..i + 1][..i] == actions[..i];
      if Interferes(actions[i]) || actions[i].SdkRefresh? {
        ReachableInv(r.t, r.s);
        PauseClosingKeeps(r.t, r.s, actions[i]);
        ghost var before := r.s;
        var ok := r.Act(actions[i]);
        if ok { ExtendsTransitive(old(r.s.oauth), before.oauth, r.s.oauth); }
      }
    }
    assert actions[..|actions|] == actions;
  }

  /** The journal in hand, the stage and the files are as they were, and no revocation was undone. */
  ghost predicate SameClosing(a: State, b: State) {
    && a.process.Closing? && b.process.Closing? && b.process.session.Some?
    && b.process.journal == a.process.journal && b.process.stage == a.process.stage
    && b.disk == a.disk && b.completing == a.completing && Extends(a.oauth, b.oauth)
  }

  lemma {:induction false} PauseClosingKeeps(t: Clock.Timing, s: State, a: Action)
    requires (Interferes(a) || a.SdkRefresh?) && s.process.Closing? && s.process.session.Some? && s.oauth.Valid()
    ensures Step(t, s, a).Some? ==>
            SameClosing(s, Step(t, s, a).value) && Step(t, s, a).value.now == s.now + Elapsed([a])
    ensures Step(t, s, a).None? ==> Elapsed([a]) == 0
  {
    assert [a][..0] == [];
    if Interferes(a) {
      EnvironmentKeeps(t, s, a);
    } else if SdkRequests(s.process.stage) && Fresh(s, a.access, a.refresh) {
      RefreshExtends(s.oauth, s.process.session.value.current.refresh, a.access, a.refresh, s.now);
    }
  }

  /** A call that fails, or a check that does, ends the run in its deferred cleanup. */
  method GiveUpRun(r: Runner)
    requires r.Valid() && r.s.process.Running?
    modifies r`s
    ensures r.Valid() && r.s.process.Cleaning? && r.s == old(r.s).(process := r.s.process)
  {
    var _ := r.Act(Fail);
  }

  /** The listing may be worked with, and its answer is dated, seen and stamped within the read latency. */
  predicate ReadsInTime(t: Clock.Timing, s: State, date: Clock.Time, between: seq<Action>)
    requires s.process.Running? && s.process.task.Ready?
  {
    var listing, found := s.account.resumes, s.process.task.found;
    && Clock.Dates(t, s.now, date) && date <= Played(t, s, between).now <= s.now + t.latency
    && if found.None? then 0 < |listing| <= 2
       else found.value.baseline <= listing && |listing| <= 3 && |listing - found.value.baseline| <= 1
  }

  /** The listing and its date, then the local clock. */
  method ReadDated(r: Runner, date: Time, between: seq<Action>) returns (ok: bool)
    requires r.Valid() && r.s.process.Running? && r.s.process.task.Ready?
    modifies r`s
    ensures r.Valid() && r.s.disk == old(r.s.disk)
    ensures if ok then r.s.process.Running? else r.s.process.Cleaning?
    ensures ok <==> ReadsInTime(r.t, old(r.s), date, between)
    ensures ok ==>
              && SameWorld(r.s, Played(r.t, old(r.s), between)) && r.s.keys == old(r.s.keys)
              && r.s.process.task == Stamped(old(r.s.process.task.found), old(r.s.account.resumes), date,
                                             r.s.now + r.t.offset)
  {
    hide Played, Reachable;
    ghost var start := r.s;
    PlayedKeeps(r.t, start, between);
    ok := ReadListing(r, date);
    if !ok { return; }
    PlayedSameWorld(r.t, r.s, start, between);
    Pause(r, between);
    ok := StampNow(r);
  }

  method ReadListing(r: Runner, date: Time) returns (ok: bool)
    requires r.Valid() && r.s.process.Running? && r.s.process.task.Ready?
    modifies r`s
    ensures r.Valid() && r.s.disk == old(r.s.disk)
    ensures var listing, found := old(r.s.account.resumes), old(r.s.process.task.found);
            && (ok <==>
                  && Clock.Dates(r.t, old(r.s.now), date)
                  && if found.None? then 0 < |listing| <= 2
                     else found.value.baseline <= listing && |listing| <= 3 && |listing - found.value.baseline| <= 1)
            && (ok ==> r.s == old(r.s).(process := Running(old(r.s.process.run),
                                                           Reading(found, listing, date, old(r.s.now)))))
    ensures !ok ==> r.s.process.Cleaning?
  {
    ok := r.Act(ReadAccount(date));
    if !ok { GiveUpRun(r); }
  }

  method StampNow(r: Runner) returns (ok: bool)
    requires r.Valid() && r.s.process.Running? && r.s.process.task.Reading?
    modifies r`s
    ensures r.Valid() && r.s.disk == old(r.s.disk)
    ensures var task := old(r.s.process.task);
            && (ok <==> task.date <= old(r.s.now) <= task.readAt + r.t.latency)
            && (ok ==> r.s == old(r.s).(process := Running(old(r.s.process.run),
                         Stamped(task.found, task.listing, task.date, old(r.s.now) + r.t.offset))))
    ensures !ok ==> r.s.process.Cleaning?
  {
    ok := r.Act(Stamp);
    if !ok { GiveUpRun(r); }
  }

  /** The intent is durable before its request is sent. */
  method PersistCreateIntent(r: Runner, key: Key, payload: Payload, io: Io) returns (ok: bool)
    requires r.Valid() && r.s.process.Running? && r.s.process.task.Stamped? && r.s.process.task.found.None?
    requires r.s.disk.intent.None?
    modifies r`s
    ensures r.Valid()
    ensures ok <==> io.Done? && key !in old(r.s.keys)
    ensures ok ==>
              var task := old(r.s.process.task);
              && SameWorld(r.s, old(r.s)) && r.s.disk.intent == Some(Intent(key, payload, task.listing, task.date))
              && r.s.process.task == SendReady(r.s.disk.intent.value,
                                               task.observedAt + ReplayWindow.CREATE_SEND_WINDOW, true)
    ensures !ok ==> r.s.process.Cleaning?
  {
    ok := r.Act(PersistIntent(key, payload, io));
    if !ok { GiveUpRun(r); return; }
    ok := r.s.process.Running?;
  }

  /** After an answer, or its loss: bound, failed, or on a first send refused or left to reads. */
  predicate Answered(s: State, first: bool) {
    s.process.Cleaning?
    || (s.process.Running?
        && (s.process.task.Bound? || (first && (s.process.task.Refused? || s.process.task.ByReads?))))
  }

  /** The request as a message on the network. */
  function OnItsWay(s: State, key: Key, payload: Payload): State {
    s.(net := s.net[s.nextUid := CreateMessage(key, payload, s.now)], nextUid := s.nextUid + 1)
  }

  /** The answer to this message arrives and names a resume that is not in the baseline. */
  predicate NamesNew(s: State, uid: nat, answered: bool, baseline: set<ResumeId>) {
    answered && uid in s.replies && s.replies[uid].Created? && s.replies[uid].id !in baseline
  }

  /** No answer to this message arrives, or one that says nothing about the create. */
  predicate SaysNothing(s: State, uid: nat, answered: bool) {
    !answered || uid !in s.replies || s.replies[uid].Unclear?
  }

  /** The answer arrives and says that the request is invalid, so that nothing was accepted. */
  predicate Rejects(s: State, uid: nat, answered: bool) { answered && uid in s.replies && s.replies[uid].Rejected? }

  /** Sends once before the deadline, then takes the answer or gives it up. */
  method SendCreate(r: Runner, answered: bool, between: seq<Action>) returns (sent: bool)
    requires r.Valid() && r.s.process.Running? && r.s.process.task.SendReady?
    modifies r`s
    ensures r.Valid() && r.s.disk == old(r.s.disk)
    ensures sent <==> old(r.s.now) + r.t.offset < old(r.s.process.task.deadline)
    ensures sent ==> Answered(r.s, old(r.s.process.task.first))
    ensures !sent ==> r.s.process.Cleaning?
    ensures var intent, uid := old(r.s.process.task.intent), old(r.s.nextUid);
            var later := Played(r.t, OnItsWay(old(r.s), intent.key, intent.payload), between);
            && (r.s.process.Running? ==> SameWorld(r.s, later) && r.s.process.task.intent == intent)
            && (r.s.process.Running? && r.s.process.task.Bound?
                <==> sent && NamesNew(later, uid, answered, intent.baseline))
            && (r.s.process.Running? && r.s.process.task.ByReads?
                <==> sent && old(r.s.process.task.first) && SaysNothing(later, uid, answered))
            && (r.s.process.Running? && r.s.process.task.Refused?
                <==> sent && old(r.s.process.task.first) && Rejects(later, uid, answered))
  {
    hide Played, Reachable;
    ghost var start, intent := r.s, r.s.process.task.intent;
    var first := r.s.process.task.first;
    sent := SendOnce(r);
    if !sent { return; }
    PlayedSameWorld(r.t, r.s, OnItsWay(start, intent.key, intent.payload), between);
    Pause(r, between);
    TakeAnswer(r, answered, first);
  }

  method SendOnce(r: Runner) returns (sent: bool)
    requires r.Valid() && r.s.process.Running? && r.s.process.task.SendReady?
    modifies r`s
    ensures r.Valid() && r.s.disk == old(r.s.disk)
    ensures sent <==> old(r.s.now) + r.t.offset < old(r.s.process.task.deadline)
    ensures sent ==>
              var task := old(r.s.process.task);
              && SameWorld(r.s, OnItsWay(old(r.s), task.intent.key, task.intent.payload))
              && r.s.process.task == Awaiting(task.intent, old(r.s.nextUid), task.first)
    ensures !sent ==> r.s.process.Cleaning?
  {
    sent := r.Act(Send);
    if !sent { GiveUpRun(r); }
  }

  /** A new resume binds; on a first send a rejection refuses, and an answer that says nothing leaves it to reads. */
  method TakeAnswer(r: Runner, answered: bool, first: bool)
    requires r.Valid() && r.s.process.Running? && r.s.process.task.Awaiting? && r.s.process.task.first == first
    modifies r`s
    ensures r.Valid() && r.s == old(r.s).(process := r.s.process)
    ensures var run, intent, uid := old(r.s.process.run), old(r.s.process.task.intent), old(r.s.process.task.uid);
            r.s.process == if NamesNew(old(r.s), uid, answered, intent.baseline) then Running(run, Bound(intent))
                           else if first && SaysNothing(old(r.s), uid, answered) then Running(run, ByReads(intent))
                           else if first && Rejects(old(r.s), uid, answered) then Running(run, Refused(intent))
                           else Cleaning(run)
  {
    if answered {
      var ok := r.Act(Receive);
      if ok { return; }
    }
    var _ := r.Act(GiveUp);
  }

  /** The listing holds every resume of the baseline, and exactly one more. */
  predicate OneMore(listing: set<ResumeId>, baseline: set<ResumeId>) {
    |listing| <= 3 && baseline <= listing && |listing - baseline| == 1
  }

  /** A create that may have happened is settled by reads only; a refused one drops its intent. */
  method SettleFresh(r: Runner, x: Answers) returns (bound: bool)
    requires r.Valid() && r.s.process.Running?
             && (r.s.process.task.Bound? || r.s.process.task.Refused? || r.s.process.task.ByReads?)
    modifies r`s
    ensures r.Valid()
    ensures if bound then r.s.process.Running? && r.s.process.task.Bound? else r.s.process.Cleaning?
    ensures var later := Played(r.t, old(r.s), x.between(3));
            && (bound <==> || old(r.s.process.task.Bound?)
                           || (old(r.s.process.task.ByReads?)
                               && OneMore(later.account.resumes, old(r.s.process.task.intent.baseline))))
            && (bound ==> SameWorld(r.s, if old(r.s.process.task.Bound?) then old(r.s) else later))
    ensures r.s.disk == if old(r.s.process.task.Refused?) && x.removeRefused.Took()
                        then old(r.s.disk).(intent := None) else old(r.s.disk)
  {
    hide Played, Reachable;
    if r.s.process.task.Bound? { return true; }
    if r.s.process.task.Refused? {
      var _ := r.Act(RemoveRefused(x.removeRefused));
      return false;
    }
    Pause(r, x.between(3));
    bound := AcceptTarget(r);
  }

  method AcceptTarget(r: Runner) returns (bound: bool)
    requires r.Valid() && r.s.process.Running?
    requires r.s.process.task.ByReads? || (r.s.process.task.Stamped? && r.s.process.task.found.Some?)
    modifies r`s
    ensures r.Valid() && r.s.disk == old(r.s.disk)
    ensures if bound then r.s.process.Running? && r.s.process.task.Bound? else r.s.process.Cleaning?
    ensures bound <==> if old(r.s.process.task.ByReads?)
                       then OneMore(old(r.s.account.resumes), old(r.s.process.task.intent.baseline))
                       else |old(r.s.process.task.listing) - old(r.s.process.task.found.value.baseline)| == 1
    ensures bound ==> SameWorld(r.s, old(r.s))
  {
    bound := r.Act(AcceptListed);
    if !bound { GiveUpRun(r); }
  }

  // ---------------------------------------------------------------- exactly when a target is bound

  /** The world when the listing is stamped, and when the request is made. */
  function ListedWorld(t: Clock.Timing, s: State, x: Answers): State { Played(t, s, x.between(0)) }

  function SendingWorld(t: Clock.Timing, s: State, x: Answers): State {
    Played(t, ListedWorld(t, s, x), x.between(1))
  }

  /** The world when the answer is taken, and when the account is listed once more. */
  function AnsweredWorld(t: Clock.Timing, s: State, x: Answers, key: Key, payload: Payload): State {
    Played(t, OnItsWay(SendingWorld(t, s, x), key, payload), x.between(2))
  }

  function RelistedWorld(t: Clock.Timing, s: State, x: Answers, key: Key, payload: Payload): State {
    Played(t, AnsweredWorld(t, s, x, key, payload), x.between(3))
  }

  /** A fresh run sends: the listing is dated, the intent is written, and its request goes out within a minute. */
  predicate SendsFresh(t: Clock.Timing, s: State, x: Answers)
    requires s.process.Running? && s.process.task == Ready(None)
  {
    && ReadsInTime(t, s, x.listDate, x.between(0))
    && x.key !in s.keys && x.persist.Done?
    && SendingWorld(t, s, x).now < ListedWorld(t, s, x).now + 60_000_000_000
  }

  /**
   A fresh create binds its target: it sends, and then either the answer names a new resume, or the answer is lost or
   says nothing, and the account that is listed next holds every resume of the first listing and exactly one more.
   */
  predicate CreatesTarget(t: Clock.Timing, s: State, x: Answers)
    requires s.process.Running? && s.process.task == Ready(None)
  {
    var uid, baseline := SendingWorld(t, s, x).nextUid, s.account.resumes;
    var answered := AnsweredWorld(t, s, x, x.key, x.payload);
    && SendsFresh(t, s, x)
    && (|| NamesNew(answered, uid, x.answered, baseline)
        || (SaysNothing(answered, uid, x.answered)
            && OneMore(RelistedWorld(t, s, x, x.key, x.payload).account.resumes, baseline)))
  }

  /** The world in which a fresh create has bound its target. */
  function CreatedWorld(t: Clock.Timing, s: State, x: Answers): State {
    var answered := AnsweredWorld(t, s, x, x.key, x.payload);
    if NamesNew(answered, SendingWorld(t, s, x).nextUid, x.answered, s.account.resumes) then answered
    else RelistedWorld(t, s, x, x.key, x.payload)
  }

  method CreateFresh(r: Runner, x: Answers) returns (bound: bool)
    requires r.Valid() && r.s.process.Running? && r.s.process.task == Ready(None)
    modifies r`s
    ensures r.Valid()
    ensures if bound then r.s.process.Running? && r.s.process.task.Bound? else r.s.process.Cleaning?
    ensures bound <==> CreatesTarget(r.t, old(r.s), x)
    ensures bound ==> SameWorld(r.s, CreatedWorld(r.t, old(r.s), x))
    // Once sent, the intent stays on disk, unless the answer rejects it and it is removed.
    ensures SendsFresh(r.t, old(r.s), x) ==>
              var answered := AnsweredWorld(r.t, old(r.s), x, x.key, x.payload);
              var rejected := Rejects(answered, SendingWorld(r.t, old(r.s), x).nextUid, x.answered);
              r.s.disk.intent == if rejected && x.removeRefused.Took() then None
                                 else Some(Intent(x.key, x.payload, old(r.s.account.resumes), x.listDate))
  {
    hide Played, ReadsInTime, Reachable;
    ghost var start := r.s;
    bound := WriteIntent(r, x);
    if !bound { return; }
    ghost var ready := r.s;
    PlayedSameWorld(r.t, OnItsWay(ready, x.key, x.payload), OnItsWay(SendingWorld(r.t, start, x), x.key, x.payload),
        x.between(2));
    bound := SendCreate(r, x.answered, x.between(2));
    if !bound { return; }
    if r.s.process.Cleaning? { return false; }
    PlayedSameWorld(r.t, r.s, AnsweredWorld(r.t, start, x, x.key, x.payload), x.between(3));
    bound := SettleFresh(r, x);
  }

  /** Up to the durable intent: the dated listing, and the exclusive write. */
  method WriteIntent(r: Runner, x: Answers) returns (ok: bool)
    requires r.Valid() && r.s.process.Running? && r.s.process.task == Ready(None)
    modifies r`s
    ensures r.Valid()
    ensures if ok then r.s.process.Running? else r.s.process.Cleaning?
    ensures ok <==>
              ReadsInTime(r.t, old(r.s), x.listDate, x.between(0)) && x.key !in old(r.s.keys) && x.persist.Done?
    ensures ok ==>
              && SameWorld(r.s, SendingWorld(r.t, old(r.s), x))
              && r.s.process.task
                 == SendReady(Intent(x.key, x.payload, old(r.s.account.resumes), x.listDate),
                              ListedWorld(r.t, old(r.s), x).now + r.t.offset + ReplayWindow.CREATE_SEND_WINDOW, true)
              && r.s.disk.intent == Some(r.s.process.task.intent)
  {
    hide Played, ReadsInTime, Reachable;
    ghost var start := r.s;
    NothingStored(r.t, r.s);
    ok := ReadDated(r, x.listDate, x.between(0));
    if !ok { return; }
    PlayedSameWorld(r.t, r.s, ListedWorld(r.t, start, x), x.between(1));
    Pause(r, x.between(1));
    ok := PersistCreateIntent(r, x.key, x.payload, x.persist);
  }

  /** A fresh run starts without an intent. */
  lemma NothingStored(t: Clock.Timing, s: State)
    requires t.Bounded() && Reachable(t, s) && s.process.Running? && s.process.task == Ready(None)
    ensures s.disk.intent.None?
  {
    ReachableInv(t, s);
  }

  /**
   A reconciliation binds its target: the new resume is listed already; or nothing new is, the stored request is still
   inside its window, it is sent once more within a minute, and the answer names a new resume.
   */
  predicate RebindsTarget(t: Clock.Timing, s: State, found: Intent, x: Answers)
    requires s.process.Running? && s.process.task == Ready(Some(found))
  {
    && ReadsInTime(t, s, x.listDate, x.between(0))
    && (|| |s.account.resumes - found.baseline| == 1
        || (s.account.resumes == found.baseline
            && 0 <= x.listDate - found.serverTime < 43_139_000_000_000
            && SendingWorld(t, s, x).now < ListedWorld(t, s, x).now + 60_000_000_000
            && NamesNew(AnsweredWorld(t, s, x, found.key, found.payload), SendingWorld(t, s, x).nextUid, x.answered,
                   found.baseline)))
  }

  /** The world in which a reconciliation has bound its target. */
  function ReboundWorld(t: Clock.Timing, s: State, found: Intent, x: Answers): State {
    if |s.account.resumes - found.baseline| == 1 then SendingWorld(t, s, x)
    else AnsweredWorld(t, s, x, found.key, found.payload)
  }

  lemma SplitIsWhole(listing: set<ResumeId>, baseline: set<ResumeId>)
    requires baseline <= listing
    ensures listing - baseline == {} <==> listing == baseline
    ensures |listing - baseline| == 0 <==> listing - baseline == {}
  {
    forall id <- listing ensures id in baseline || id in listing - baseline { }
  }

  /** An unresolved intent: the listed target, or the stored request once more inside its window. */
  method Reconcile(r: Runner, x: Answers) returns (bound: bool)
    requires r.Valid() && r.s.process.Running? && r.s.process.task.Ready? && r.s.process.task.found.Some?
    modifies r`s
    ensures r.Valid() && r.s.disk == old(r.s.disk)
    ensures if bound then r.s.process.Running? && r.s.process.task.Bound? else r.s.process.Cleaning?
    ensures bound <==> RebindsTarget(r.t, old(r.s), old(r.s.process.task.found.value), x)
    ensures bound ==> SameWorld(r.s, ReboundWorld(r.t, old(r.s), old(r.s.process.task.found.value), x))
  {
    hide Played, Reachable;
    ghost var start, found := r.s, r.s.process.task.found.value;
    bound := ReadDated(r, x.listDate, x.between(0));
    if !bound { return; }
    SplitIsWhole(start.account.resumes, found.baseline);
    PlayedSameWorld(r.t, r.s, ListedWorld(r.t, start, x), x.between(1));
    Pause(r, x.between(1));
    if |r.s.process.task.listing - r.s.process.task.found.value.baseline| == 1 {
      bound := AcceptTarget(r);
      return;
    }
    bound := Replay(r);
    if !bound { return; }
    PlayedSameWorld(r.t, OnItsWay(r.s, found.key, found.payload),
        OnItsWay(SendingWorld(r.t, start, x), found.key, found.payload), x.between(2));
    bound := SendCreate(r, x.answered, x.between(2));
    if bound && r.s.process.Cleaning? { bound := false; }
  }

  method Replay(r: Runner) returns (ok: bool)
    requires r.Valid() && r.s.process.Running? && r.s.process.task.Stamped? && r.s.process.task.found.Some?
    modifies r`s
    ensures r.Valid() && r.s.disk == old(r.s.disk)
    ensures var task := old(r.s.process.task);
            && (ok <==> task.listing - task.found.value.baseline == {}
                        && 0 <= task.date - task.found.value.serverTime < 43_139_000_000_000)
            && (ok ==> SameWorld(r.s, old(r.s))
                       && r.s.process.task == SendReady(task.found.value, task.observedAt + 60_000_000_000, false))
    ensures !ok ==> r.s.process.Cleaning?
  {
    ok := r.Act(PrepareReplay);
    if !ok { GiveUpRun(r); }
  }

  /** The final check, dated by the server, and the journal for the current or the captured grant. */
  method VerifyAndPrepare(r: Runner, x: Answers) returns (verified: bool)
    requires r.Valid() && r.s.process.Running? && r.s.process.task.Bound?
    modifies r`s
    ensures r.Valid() && r.s.disk == old(r.s.disk)
    ensures if verified then r.s.process.Closing? && r.s.process.stage.Persist? && r.s.process.session.Some?
            else r.s.process.Cleaning?
    ensures verified <==> Clock.Dates(r.t, old(r.s.now), x.finalDate)
    ensures verified ==>
              var later := Played(r.t, old(r.s), x.between(4));
              && later.process.Running? && r.s.now == later.now
              && r.s.process.journal == JournalFor(if x.useCurrent then later.process.run.current
                                                   else later.process.run.captured, x.finalDate)
  {
    hide Played, Reachable;
    ghost var start := r.s;
    PlayedKeeps(r.t, start, x.between(4));
    verified := VerifyOnce(r, x.finalDate);
    if !verified { return; }
    PlayedSameWorld(r.t, r.s, start, x.between(4));
    Pause(r, x.between(4));
    PrepareOnce(r, x.useCurrent);
  }

  method VerifyOnce(r: Runner, date: Clock.Time) returns (verified: bool)
    requires r.Valid() && r.s.process.Running? && r.s.process.task.Bound?
    modifies r`s
    ensures r.Valid() && r.s.disk == old(r.s.disk) && r.s.now == old(r.s.now)
    ensures if verified then r.s.process == Running(old(r.s.process.run), Verified(old(r.s.process.task.intent), date))
            else r.s.process.Cleaning?
    ensures verified <==> Clock.Dates(r.t, old(r.s.now), date)
    ensures r.s == old(r.s).(process := r.s.process)
  {
    verified := r.Act(OwnerWorkflow.Action.VerifyFinal(date));
    if !verified { GiveUpRun(r); }
  }

  method PrepareOnce(r: Runner, useCurrent: bool)
    requires r.Valid() && r.s.process.Running? && r.s.process.task.Verified?
    modifies r`s
    ensures r.Valid() && r.s.disk == old(r.s.disk) && r.s.now == old(r.s.now)
    ensures var run := old(r.s.process.run);
            r.s.process == Closing(JournalFor(if useCurrent then run.current else run.captured,
                                              old(r.s.process.task.confirmedAt)), Persist, Some(run))
  {
    var _ := r.Act(PrepareJournal(useCurrent));
  }

  /** One durable write of the completion, in the order journal, sentinel, intent. */
  method WriteNext(r: Runner, stage: Stage, io: Io, between: seq<Action>) returns (ok: bool)
    requires r.Valid() && r.s.process.Closing? && r.s.process.stage == stage && r.s.process.session.Some?
    requires stage.Persist? || stage.EnsureSentinel? || stage.DropIntent?
    requires !stage.Persist? ==> r.s.disk.journal.Some?
    modifies r`s
    ensures r.Valid()
    ensures ok ==> r.s.process.Closing? && r.s.process.session.Some? && r.s.disk.journal.Some?
                   && r.s.process.stage == (if stage.Persist? then EnsureSentinel
                                            else if stage.EnsureSentinel? then DropIntent
                                            else Inspect)
    ensures !ok ==> r.s.process.Exited?
    ensures io.Done? ==> ok
    ensures ok ==> r.s.process.journal == old(r.s.process.journal) && r.s.now == old(r.s.now) + Elapsed(between)
  {
    PauseClosing(r, between);
    WriteGoesOn(r.t, r.s, io);
    var _ := r.Act(Write(io));
    ok := r.s.process.Closing?;
  }

  /** A write that reports success goes on to the next stage, under the same journal. */
  lemma WriteGoesOn(t: Clock.Timing, s: State, io: Io)
    requires t.Bounded() && Reachable(t, s) && s.process.Closing? && s.process.session.Some?
    requires s.process.stage.Persist? || s.process.stage.EnsureSentinel? || s.process.stage.DropIntent?
    ensures Step(t, s, Write(io)).Some?
    ensures var s' := Step(t, s, Write(io)).value;
            && s'.now == s.now && (io.Done? ==> s'.process.Closing?)
            && (s'.process.Closing? ==> s'.process.journal == s.process.journal)
  {
    ReachableInv(t, s);
    if s.process.stage.EnsureSentinel? && s.disk.sentinel.Some? { SentinelNeverConflicts(t, s); }
  }

  /** The SDK's next request is denied in time with the journaled token, and reauthorization is refused. */
  predicate SdkProves(t: Clock.Timing, now: Clock.Time, j: Journal, x: Answers) {
    x.inspected && x.revokeTook && x.proofSeen && Clock.Dates(t, now, x.proofDate) && x.proofDate < j.accessUntil
  }

  /** The SDK's own revocation and its proof, or the settling loop. */
  method ProveRevoked(r: Runner, x: Answers, rounds: nat -> Round) returns (proved: bool, bySdk: bool)
    requires r.Valid() && r.s.process.Closing? && r.s.process.stage.Inspect? && r.s.process.session.Some?
             && r.s.disk.journal.Some?
    modifies r`s
    ensures r.Valid() && r.s.disk.journal.Some?
    ensures proved ==> r.s.process.Closing? && r.s.process.stage == if bySdk then FinishSentinel else Reload
    ensures !proved ==> r.s.process.Exited?
    ensures var asked := old(r.s.now) + Elapsed(x.between(7)) + Elapsed(x.between(5));
            SdkProves(r.t, asked, old(r.s.process.journal), x) ==> proved && bySdk
  {
    bySdk := false;
    if !x.inspected { r.GiveUpHere(); return false, false; }
    proved, bySdk := SdkRevocation(r, x);
    if !proved || bySdk { return; }
    proved := r.SettleRevocation(rounds);
  }

  method SdkRevocation(r: Runner, x: Answers) returns (ok: bool, proved: bool)
    requires r.Valid() && r.s.process.Closing? && r.s.process.stage.Inspect? && r.s.process.session.Some?
    modifies r`s
    ensures r.Valid() && r.s.disk == old(r.s.disk)
    ensures ok ==> r.s.process.Closing? && r.s.process.stage == if proved then FinishSentinel else Revoking(0)
    ensures !ok ==> r.s.process.Exited?
    ensures var asked := old(r.s.now) + Elapsed(x.between(7)) + Elapsed(x.between(5));
            SdkProves(r.t, asked, old(r.s.process.journal), x) ==> ok && proved
  {
    InspectAndRevoke(r, x.revokeTook, x.between(7));
    PauseClosing(r, x.between(5));
    ok, proved := RequestAgain(r, x);
  }

  /** The next request of the session. */
  method RequestAgain(r: Runner, x: Answers) returns (ok: bool, proved: bool)
    requires r.Valid() && r.s.process.Closing? && r.s.process.stage.SdkProbe?
    modifies r`s
    ensures r.Valid() && r.s.disk == old(r.s.disk)
    ensures ok ==> r.s.process.Closing? && r.s.process.stage == if proved then FinishSentinel else Revoking(0)
    ensures !ok ==> r.s.process.Exited?
    ensures old(r.s.completing.Some? && r.s.oauth.Dead(r.s.completing.value, r.s.now))
            && SdkProves(r.t, old(r.s.now), old(r.s.process.journal), x)
            ==> ok && proved
  {
    hide Reachable;
    if r.s.completing.Some? && r.s.oauth.Dead(r.s.completing.value, r.s.now) { DeadIsRefused(r.t, r.s, 0, 0); }
    ok := r.Act(SdkProof(x.proofDate, x.proofSeen));
    if !ok { r.GiveUpHere(); return false, false; }
    proved := r.s.process.stage.FinishSentinel?;
  }

  method InspectAndRevoke(r: Runner, took: bool, between: seq<Action>)
    requires r.Valid() && r.s.process.Closing? && r.s.process.stage.Inspect? && r.s.process.session.Some?
    modifies r`s
    ensures r.Valid() && r.s.disk == old(r.s.disk) && r.s.process.Closing? && r.s.process.stage.SdkProbe?
            && r.s.process.session.Some?
    ensures r.s.process.journal == old(r.s.process.journal) && r.s.now == old(r.s.now) + Elapsed(between)
    ensures took ==> r.s.completing.Some? && r.s.oauth.Dead(r.s.completing.value, r.s.now)
  {
    PauseClosing(r, between);
    var _ := r.Act(InspectTarget);
    RevokeNow(r, took);
  }

  method RevokeNow(r: Runner, took: bool)
    requires r.Valid() && r.s.process.Closing? && r.s.process.stage.SdkRevoke?
    modifies r`s
    ensures r.Valid() && r.s.process == Closing(old(r.s.process.journal), SdkProbe, old(r.s.process.session))
    ensures r.s.now == old(r.s.now) && r.s.disk == old(r.s.disk)
    ensures took ==> r.s.completing.Some? && r.s.oauth.Dead(r.s.completing.value, r.s.now)
  {
    hide Reachable;
    RevokingKills(r.t, r.s);
    var _ := r.Act(RevokeCall(took));
  }

  /** Every write of the completion succeeds, and the SDK's own proof is in time. */
  predicate CompletesAtOnce(t: Clock.Timing, now: Clock.Time, j: Journal, x: Answers, writes: nat -> Io) {
    && x.journal.Done? && x.sentinel.Done? && x.dropIntent.Done? && AllDone(writes)
    && SdkProves(t, now + Elapsed(x.between(8)) + Elapsed(x.between(9)) + Elapsed(x.between(10))
                    + Elapsed(x.between(7)) + Elapsed(x.between(5)), j, x)
  }

  /** Completion. A revocation proved only by the settling loop is reported as an error all the same. */
  method Complete(r: Runner, x: Answers, rounds: nat -> Round, writes: nat -> Io) returns (done: bool, bySdk: bool)
    requires r.Valid() && r.s.process.Closing? && r.s.process.stage.Persist? && r.s.process.session.Some?
    modifies r`s
    ensures r.Valid()
    ensures done ==> r.s.process.Idle? && r.s.disk.sentinel.Some? && r.s.disk.journal.None? && r.s.disk.intent.None?
                     && r.s.completing.Some? && r.s.oauth.Revoked(r.s.completing.value)
    ensures !done ==> r.s.process.Exited?
    ensures CompletesAtOnce(r.t, old(r.s.now), old(r.s.process.journal), x, writes) ==> done && bySdk
  {
    bySdk := false;
    done := WriteNext(r, Persist, x.journal, x.between(8));
    if !done { return; }
    done := WriteNext(r, EnsureSentinel, x.sentinel, x.between(9));
    if !done { return; }
    done := WriteNext(r, DropIntent, x.dropIntent, x.between(10));
    if !done { return; }
    done, bySdk := ProveRevoked(r, x, rounds);
    if !done { return; }
    if !bySdk { r.LoadJournalAgain(); }
    done := r.FinishRevocation(writes);
  }

  /**
   The final check is dated; then every write of the completion succeeds, the revocation takes effect, and the SDK's
   next request is denied within 55 minutes of the journaled grant's last token answer and 29 days of its first.
   */
  predicate FinishesAtOnce(t: Clock.Timing, bound: State, x: Answers, writes: nat -> Io)
    requires bound.process.Running?
  {
    var closing := Played(t, bound, x.between(4));
    && Clock.Dates(t, bound.now, x.finalDate) && closing.process.Running?
    && x.journal.Done? && x.sentinel.Done? && x.dropIntent.Done? && AllDone(writes)
    && x.inspected && x.revokeTook && x.proofSeen
    && var asked := closing.now + Elapsed(x.between(8)) + Elapsed(x.between(9)) + Elapsed(x.between(10))
                    + Elapsed(x.between(7)) + Elapsed(x.between(5));
       var grant := if x.useCurrent then closing.process.run.current else closing.process.run.captured;
       && Clock.Dates(t, asked, x.proofDate)
       && x.proofDate < grant.latest + 3_300_000_000_000 && x.proofDate < grant.first + 2_505_600_000_000_000
  }

  /** A connected run binds its target: a new one, or the one of the intent that it found. */
  predicate Binds(t: Clock.Timing, s: State, x: Answers)
    requires s.process.Running? && s.process.task.Ready?
  {
    match s.process.task.found
    case Some(found) => RebindsTarget(t, s, found, x)
    case None => CreatesTarget(t, s, x)
  }

  function BoundWorld(t: Clock.Timing, s: State, x: Answers): State
    requires s.process.Running? && s.process.task.Ready?
  {
    match s.process.task.found
    case Some(found) => ReboundWorld(t, s, found, x)
    case None => CreatedWorld(t, s, x)
  }

  /** A run that got its one grant, in which the SDK and the environment may already have acted. */
  function ConnectedWorld(t: Clock.Timing, s: State, x: Answers): State
    requires s.process.Connecting?
  {
    var grant := GrantSnapshot(x.access, x.refresh, x.connectDate, x.connectDate);
    Played(t, s.(oauth := s.oauth.Grant(x.family, x.access, x.refresh, s.now),
                 process := Running(Run(x.family, grant, grant), Ready(s.process.found))), x.between(6))
  }

  /** The run connects, with tokens and a family that are new to the server. */
  predicate Connects(t: Clock.Timing, s: State, x: Answers) {
    && x.family !in s.oauth.families && x.access !in s.oauth.tokens && x.refresh !in s.oauth.tokens
    && x.access != x.refresh && Clock.Dates(t, s.now, x.connectDate)
  }

  /** It connects and binds its target. */
  predicate ConnectsAndBinds(t: Clock.Timing, s: State, x: Answers)
    requires s.process.Connecting?
  {
    && Connects(t, s, x)
    && var ready := ConnectedWorld(t, s, x);
       ready.process.Running? && ready.process.task.Ready? && Binds(t, ready, x)
  }

  /** And the final check of the bound target is dated. */
  predicate Verifies(t: Clock.Timing, s: State, x: Answers)
    requires s.process.Connecting?
  {
    ConnectsAndBinds(t, s, x) && Clock.Dates(t, BoundWorld(t, ConnectedWorld(t, s, x), x).now, x.finalDate)
  }

  /** The cleanup revokes unless the root holds an intent or cannot be read. */
  predicate CleanedUp(s: State, existsFails: bool, took: bool) {
    && s.process.Exited? && s.process.existsFailed == existsFails
    && s.process.revokeSent == (!existsFails && s.disk.intent.None?)
    && s.process.revokeTook == (s.process.revokeSent && took)
  }

  /** A run that must complete: it connects, binds its target, verifies and completes, each in time. */
  predicate RunsAtOnce(t: Clock.Timing, s: State, x: Answers, writes: nat -> Io)
    requires s.process.Connecting?
  {
    ConnectsAndBinds(t, s, x)
    && var bound := BoundWorld(t, ConnectedWorld(t, s, x), x);
       bound.process.Running? && FinishesAtOnce(t, bound, x, writes)
  }

  /** The answers of a run in which nothing takes time and nothing is lost, but perhaps the answer to the create. */
  function PromptAnswers(answered: bool): Answers {
    Answers(7, 1, 2, 0, 0, 9, 3, Done, answered, Done, 0, true, Done, Done, Done, true, true, 0, true, false, true,
            (n: nat) => if n == 2 then [Deliver(0, Accept(6))] else [])
  }

  /**
   There is such a run: the first of an account with one resume. It completes even when the answer to its create is
   lost: the account that it lists next holds exactly one more resume.
   */
  lemma SomeRunMustComplete(answered: bool)
    ensures RunsAtOnce(PROMPT, Initial(0, NO_GRANTS, {5}).(process := Connecting(None)), PromptAnswers(answered),
                       (n: nat) => Done)
  {
    var x, s := PromptAnswers(answered), Initial(0, NO_GRANTS, {5}).(process := Connecting(None));
    var ready := PromptReady();
    PromptConnects(answered);
    PromptCreate(answered, ready);
    hide Connects, ConnectedWorld, CreatesTarget, CreatedWorld, FinishesAtOnce, PromptAnswers;
    PromptFinish(CreatedWorld(PROMPT, ready, x), x);
  }

  function PromptReady(): State {
    Initial(0, NO_GRANTS.Grant(7, 1, 2, 0), {5}).(process := Running(FIRST_RUN, Ready(None)))
  }

  lemma PromptConnects(answered: bool)
    ensures var x, s := PromptAnswers(answered), Initial(0, NO_GRANTS, {5}).(process := Connecting(None));
            Connects(PROMPT, s, x) && ConnectedWorld(PROMPT, s, x) == PromptReady()
  {
    var x, s := PromptAnswers(answered), Initial(0, NO_GRANTS, {5}).(process := Connecting(None));
    assert x.between(6) == [];
    NothingPlayed(PROMPT);
    hide Played;
  }

  lemma PromptFinish(bound: State, x: Answers)
    requires bound.now == 0 && bound.process == Running(FIRST_RUN, Ready(None))
    requires x == PromptAnswers(x.answered)
    ensures FinishesAtOnce(PROMPT, bound, x, (n: nat) => Done)
  {
    assert forall n: nat :: n != 2 ==> x.between(n) == [];
  }

  lemma NothingPlayed(t: Clock.Timing)
    ensures forall s: State :: Played(t, s, []) == s
  {
  }

  lemma OnePlayed(t: Clock.Timing, s: State, a: Action)
    ensures Played(t, s, [a]) == Passed(t, s, a)
  {
    assert [a][..0] == [];
  }

  /** The create of that run: resume 6 is accepted, and then named by the answer or found by a listing. */
  lemma PromptCreate(answered: bool, ready: State)
    requires ready == PromptReady()
    ensures var x := PromptAnswers(answered);
            && CreatesTarget(PROMPT, ready, x)
            && CreatedWorld(PROMPT, ready, x).now == 0 && CreatedWorld(PROMPT, ready, x).process == ready.process
  {
    var x := PromptAnswers(answered);
    assert x.between(3) == [] && x.between(2) == [Deliver(0, Accept(6))];
    NothingPlayed(PROMPT);
    PromptSends(answered);
    hide SendsFresh, SendingWorld, Initial;
    var sent := OnItsWay(ready, 9, 3);
    OnePlayed(PROMPT, sent, Deliver(0, Accept(6)));
    PromptDelivery(sent);
    hide Played, Passed;
    assert AnsweredWorld(PROMPT, ready, x, 9, 3) == RelistedWorld(PROMPT, ready, x, 9, 3)
           == Passed(PROMPT, sent, Deliver(0, Accept(6)));
    assert {5, 6} - {5} == {6};
  }

  lemma PromptSends(answered: bool)
    ensures var x, ready := PromptAnswers(answered), PromptReady();
            SendsFresh(PROMPT, ready, x) && SendingWorld(PROMPT, ready, x) == ready
  {
    var x := PromptAnswers(answered);
    assert x.between(0) == [] && x.between(1) == [];
    NothingPlayed(PROMPT);
    hide Played;
  }

  lemma PromptDelivery(sent: State)
    requires sent.net == map[0 := CreateMessage(9, 3, 0)] && sent.account == Account({5}, map[], []) && sent.now == 0
    ensures var later := Passed(PROMPT, sent, Deliver(0, Accept(6)));
            && later.account.resumes == {5, 6} && 0 in later.replies && later.replies[0] == Created(6)
            && later.now == 0 && later.process == sent.process
  {
    assert {5} + {6} == {5, 6};
  }

  /** The run of one grant, with its deferred cleanup. */
  method RunOwnerWorkflow(r: Runner, x: Answers, rounds: nat -> Round, writes: nat -> Io) returns (completed: bool)
    requires r.Valid() && r.s.process.Connecting?
    modifies r`s
    ensures r.Valid()
    ensures completed ==>
            r.s.process.Idle? && r.s.disk.sentinel.Some? && r.s.disk.journal.None? && r.s.disk.intent.None?
                          && r.s.completing.Some? && r.s.oauth.Revoked(r.s.completing.value)
    ensures !completed ==> r.s.process.Idle? || r.s.process.Exited? || r.s.process.Connecting?
    ensures completed ==> Verifies(r.t, old(r.s), x)
    ensures !Connects(r.t, old(r.s), x) ==> r.s == old(r.s)
    ensures Connects(r.t, old(r.s), x) && !Verifies(r.t, old(r.s), x) ==> CleanedUp(r.s, x.existsFails, x.cleanupTook)
    ensures RunsAtOnce(r.t, old(r.s), x, writes) ==> completed
  {
    hide Binds, BoundWorld, Played, Reachable, CompletesAtOnce, FinishesAtOnce, CleanedUp;
    var connected := ConnectOnce(r, x);
    if !connected { return false; }
    Pause(r, x.between(6));
    ghost var ready := r.s;
    var bound := BindTarget(r, x);
    if bound {
      ghost var target := BoundWorld(r.t, ready, x);
      if FinishesAtOnce(r.t, target, x, writes) { FinishCompletes(r.t, r.s, target, x, writes); }
      bound := VerifyAndPrepare(r, x);
    }
    if !bound {
      CleanUp(r, x.existsFails, x.cleanupTook);
      return false;
    }
    var done, bySdk := Complete(r, x, rounds, writes);
    return done && bySdk;
  }

  method BindTarget(r: Runner, x: Answers) returns (bound: bool)
    requires r.Valid() && r.s.process.Running? && r.s.process.task.Ready?
    modifies r`s
    ensures r.Valid()
    ensures if bound then r.s.process.Running? && r.s.process.task.Bound? else r.s.process.Cleaning?
    ensures bound <==> Binds(r.t, old(r.s), x)
    ensures bound ==> SameWorld(r.s, BoundWorld(r.t, old(r.s), x))
  {
    hide CreatesTarget, RebindsTarget, CreatedWorld, ReboundWorld, Reachable;
    if r.s.process.task.found.Some? { bound := Reconcile(r, x); } else { bound := CreateFresh(r, x); }
  }

  /** The cutoffs of the journal are those of the grant that it is written for. */
  lemma FinishCompletes(t: Clock.Timing, s: State, bound: State, x: Answers, writes: nat -> Io)
    requires SameWorld(s, bound) && FinishesAtOnce(t, bound, x, writes)
    ensures var later := Played(t, s, x.between(4));
            && Clock.Dates(t, s.now, x.finalDate) && later.process.Running?
            && CompletesAtOnce(t, later.now, JournalFor(if x.useCurrent then later.process.run.current
                                                        else later.process.run.captured, x.finalDate), x, writes)
  {
    hide Played;
    PlayedSameWorld(t, s, bound, x.between(4));
  }

  method ConnectOnce(r: Runner, x: Answers) returns (ok: bool)
    requires r.Valid() && r.s.process.Connecting?
    modifies r`s
    ensures r.Valid()
    ensures var grant := GrantSnapshot(x.access, x.refresh, x.connectDate, x.connectDate);
            && (ok <==> && x.family !in old(r.s.oauth.families) && x.access !in old(r.s.oauth.tokens)
                        && x.refresh !in old(r.s.oauth.tokens) && x.access != x.refresh
                        && Clock.Dates(r.t, old(r.s.now), x.connectDate))
            && r.s == if ok then old(r.s).(oauth := old(r.s).oauth.Grant(x.family, x.access, x.refresh, old(r.s.now)),
                                           process := Running(Run(x.family, grant, grant),
                                                              Ready(old(r.s.process.found))))
                      else old(r.s)
  {
    ok := r.Act(Connect(x.family, x.access, x.refresh, x.connectDate));
  }

  method CleanUp(r: Runner, existsFails: bool, took: bool)
    requires r.Valid() && r.s.process.Cleaning?
    modifies r`s
    ensures r.Valid() && r.s.process.Exited? && r.s.disk == old(r.s.disk)
    ensures CleanedUp(r.s, existsFails, took)
    ensures r.s.oauth == if r.s.process.revokeTook then old(r.s.oauth).Revoke(old(r.s.process.run.captured.refresh))
                         else old(r.s.oauth)
  {
    var _ := r.Act(Cleanup(existsFails, took));
  }

  /** Every write of the recovery succeeds, and one of its rounds settles the revocation. */
  predicate RecoversAtOnce(t: Clock.Timing, s: State, x: Answers, rounds: nat -> Round, writes: nat -> Io) {
    && s.disk.journal.Some? && x.sentinel.Done? && x.dropIntent.Done? && AllDone(writes)
    && Settles(t, s.now, s.oauth.tokens.Keys, s.disk.journal.value, rounds)
  }

  /**
   The whole command, under its lock: a journal permits only recovery, a sentinel ends the run at once. A
   completed run leaves the sentinel alone on disk and a revoked grant; a failed one has reached an error
   return, for which the authority is kept.
   */
  method RunWorkflow(r: Runner, x: Answers, rounds: nat -> Round, writes: nat -> Io) returns (result: Result)
    requires r.Valid() && r.s.process.Idle?
    modifies r`s
    ensures r.Valid() && |r.s.account.accepted| <= 1
    ensures result.AlreadyComplete? <==> old(r.s.disk.journal.None? && r.s.disk.sentinel.Some?)
    ensures result.Completed? || result.RevocationRecovered? ==>
              r.s.process.Idle? && r.s.disk.sentinel.Some? && r.s.disk.journal.None? && r.s.disk.intent.None?
              && r.s.completing.Some? && r.s.oauth.Revoked(r.s.completing.value)
    ensures result.RevocationRecovered? ==> old(r.s.disk.journal.Some?)
    ensures result.Completed? ==>
              && old(r.s.disk.journal.None? && r.s.disk.sentinel.None?)
              && Verifies(r.t, old(r.s).(process := Connecting(old(r.s.disk.intent))), x)
    // A run that connected, and then bound nothing or could not date its final check, went through the cleanup.
    ensures old(r.s.disk.journal.None? && r.s.disk.sentinel.None?) ==>
              var start := old(r.s).(process := Connecting(old(r.s.disk.intent)));
              Connects(r.t, start, x) && !Verifies(r.t, start, x) ==> CleanedUp(r.s, x.existsFails, x.cleanupTook)
    ensures RecoversAtOnce(r.t, old(r.s), x, rounds, writes) ==> result.RevocationRecovered?
    ensures old(r.s.disk.journal.None? && r.s.disk.sentinel.None?) ==>
              RunsAtOnce(r.t, old(r.s).(process := Connecting(old(r.s.disk.intent))), x, writes) ==> result.Completed?
    ensures r.s.process.Exited? && !r.s.process.existsFailed ==>
              AuthorityKept(r.s, r.s.process.family, r.s.process.revokeSent)
    ensures r.s.process.Exited? ==>
              (LastingAuthority(r.s, r.s.process.family)
               <==> r.s.disk.intent.Some? || r.s.oauth.Dead(r.s.process.family, r.s.now)
                    || !(r.s.process.existsFailed || (r.s.process.revokeSent && !r.s.process.revokeTook)))
  {
    hide RunsAtOnce, Connects, Verifies, CleanedUp;
    if r.s.disk.journal.Some? {
      var recovered := r.RecoverRevocationOnly(x.sentinel, x.dropIntent, rounds, writes);
      result := if recovered then RevocationRecovered else Blocked;
    } else if r.s.disk.sentinel.Some? {
      result := AlreadyComplete;
    } else {
      var _ := r.Act(OwnerWorkflow.Action.Start);
      var completed := RunOwnerWorkflow(r, x, rounds, writes);
      result := if completed then Completed else Blocked;
    }
    AtMostOneCreate(r.t, r.s);
    ReachableInv(r.t, r.s);
  }
}
