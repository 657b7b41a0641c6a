/** The supervisor of one command: it samples, signals and drains until nothing it owns is left. */
module Supervisors {
  import opened Distinctness
  import opened Options
  import opened Ordering
  import opened ProcessOwner
  import opened Sequences

  const OBSERVATION_FAILED := 126
  const TIMED_OUT := 124
  const SIGNALED := 128
  const SIGTERM := 15
  const SIGKILL := 9

  type Observation = Option<Table>

  /** What the kernel answers to one signal. */
  datatype Kernel = Delivered | NoProcess | Refused

  /** What the world answers to one round of signals: tables taken, and the kernel's word on each signal. */
  datatype Answers = Answers(sample: Observation, group: Kernel, child: Kernel,
                             revalidate: Identity -> Observation, kill: Identity -> Kernel)

  datatype Signal = ToGroup(number: nat) | ToMember(number: nat, id: Identity) | ToChild(number: nat)

  /** What one turn of the waiting loop meets. Of the pending signals the first one counts. */
  datatype Turn = Turn(sample: Observation, pending: Option<nat>, timedOut: bool, exited: bool)

  /** Why a turn ends the waiting, when it is not the command's own end. */
  function Cause(turn: Turn): Option<int> {
    if turn.sample.None? then Some(OBSERVATION_FAILED)
    else if turn.pending.Some? then Some(SIGNALED + turn.pending.value)
    else if turn.timedOut then Some(TIMED_OUT)
    else None
  }

  predicate EndsWaiting(turn: Turn) { Cause(turn).Some? || turn.exited }

  /** The first round passes on the signal that ended the waiting, and is a plain termination otherwise. */
  function FirstSignal(turn: Turn): nat {
    if turn.sample.Some? && turn.pending.Some? then turn.pending.value else SIGTERM
  }

  function AsEvent(o: Observation): Event { if o.None? then NotSeen else Seen(o.value) }

  // ---------------------------------------------------------------- one round of signals

  predicate IdentityLeq(a: Identity, b: Identity) { a.pid < b.pid || (a.pid == b.pid && StringLeq(a.birth, b.birth)) }

  lemma IdentityTotal(a: Identity, b: Identity)
    ensures IdentityLeq(a, b) || IdentityLeq(b, a)
    ensures IdentityLeq(a, b) && IdentityLeq(b, a) ==> a == b
  {
    StringLeqTotal(a.birth, b.birth);
    if IdentityLeq(a, b) && IdentityLeq(b, a) { StringLeqAntisymmetric(a.birth, b.birth); }
  }

  lemma IdentityTransitive(a: Identity, b: Identity, c: Identity)
    requires IdentityLeq(a, b) && IdentityLeq(b, c)
    ensures IdentityLeq(a, c)
  {
    if a.pid == b.pid == c.pid { StringLeqTransitive(a.birth, b.birth, c.birth); }
  }

  ghost predicate IsLeast(least: Identity, ids: set<Identity>) {
    least in ids && forall id <- ids :: IdentityLeq(least, id)
  }

  lemma {:induction false} LeastExists(ids: set<Identity>)
    requires ids != {}
    ensures exists least :: IsLeast(least, ids)
  {
    var one :| one in ids;
    IdentityTotal(one, one);
    if ids - {one} == {} {
      assert ids == {one};
      assert IsLeast(one, ids);
    } else {
      LeastExists(ids - {one});
      var least :| IsLeast(least, ids - {one});
      IdentityTotal(one, least);
      if IdentityLeq(least, one) {
        assert IsLeast(least, ids);
      } else {
        forall id <- ids ensures IdentityLeq(one, id) {
          if id != one { IdentityTransitive(one, least, id); }
        }
        assert IsLeast(one, ids);
      }
    }
  }

  /** The identities in increasing order. */
  ghost function InOrder(ids: set<Identity>): seq<Identity> {
    if ids == {} then []
    else
      LeastExists(ids);
      var least :| IsLeast(least, ids);
      [least] + InOrder(ids - {least})
  }

  lemma {:induction false} InOrderElements(ids: set<Identity>, id: Identity)
    ensures id in InOrder(ids) <==> id in ids
  {
    if ids != {} {
      LeastExists(ids);
      InOrderElements(ids - {InOrder(ids)[0]}, id);
    }
  }

  lemma {:induction false} InOrderStep(least: Identity, ids: set<Identity>)
    requires IsLeast(least, ids)
    ensures InOrder(ids) == [least] + InOrder(ids - {least})
  {
    forall id | IsLeast(id, ids) ensures id == least { IdentityTotal(id, least); }
    LeastExists(ids);
  }

  /** The table taken just before cannot be had, or the kernel refuses the signal. */
  predicate CutsShort(a: Answers, id: Identity) {
    a.revalidate(id).None? || (Live(a.revalidate(id).value, id) && a.kill(id).Refused?)
  }

  predicate Hits(a: Answers, id: Identity) {
    a.revalidate(id).Some? && Live(a.revalidate(id).value, id) && a.kill(id).Delivered?
  }

  /** The signals for these identities: to those that a table taken just before shows alive, up to the first failure. */
  function MemberSignals(number: nat, a: Answers, ids: seq<Identity>): (bool, seq<Signal>) {
    if ids == [] then (true, [])
    else if CutsShort(a, ids[0]) then (false, [])
    else
      var rest := MemberSignals(number, a, ids[1..]);
      (rest.0, (if Hits(a, ids[0]) then [ToMember(number, ids[0])] else []) + rest.1)
  }

  lemma NoMembers(number: nat, a: Answers)
    ensures MemberSignals(number, a, InOrder({})) == (true, [])
  {
  }

  lemma MemberSignalsStep(number: nat, a: Answers, id: Identity, ids: set<Identity>)
    requires IsLeast(id, ids)
    ensures var all, rest := MemberSignals(number, a, InOrder(ids)), MemberSignals(number, a, InOrder(ids - {id}));
            all == if CutsShort(a, id) then (false, [])
                   else (rest.0, (if Hits(a, id) then [ToMember(number, id)] else []) + rest.1)
  {
    InOrderStep(id, ids);
    assert InOrder(ids)[0] == id && InOrder(ids)[1..] == InOrder(ids - {id});
  }

  /** The round is whole unless some identity cuts it short, and then every live identity was signalled. */
  lemma {:induction false} MemberSignalsMean(number: nat, a: Answers, ids: seq<Identity>)
    ensures var r := MemberSignals(number, a, ids);
            && (r.0 <==> forall id <- ids :: !CutsShort(a, id))
            && (forall id <- ids :: r.0 && Hits(a, id) ==> ToMember(number, id) in r.1)
  {
    if ids != [] {
      assert ids == [ids[0]] + ids[1..];
      MemberSignalsMean(number, a, ids[1..]);
    }
  }

  lemma {:induction false} MemberSignalsAllowed(number: nat, a: Answers, ids: seq<Identity>, s: Signal)
    requires s in MemberSignals(number, a, ids).1
    ensures s.ToMember? && s.number == number && s.id in ids && Hits(a, s.id)
  {
    if s in MemberSignals(number, a, ids[1..]).1 { MemberSignalsAllowed(number, a, ids[1..], s); }
  }

  // ---------------------------------------------------------------- all that is met, in order

  /** A sample of the process table, or one round of signals. */
  datatype Encounter = Observed(table: Observation) | Signaling(number: nat, answers: Answers)

  /** Where the supervision stands. A raised exception leaves it for good. */
  datatype Course = Course(knows: Knowledge, signals: seq<Signal>, reason: Option<int>, raised: bool)

  const START := Course(Knowledge({}, None, true), [], None, false)

  function Blamed(reason: Option<int>, failed: bool): Option<int> {
    if reason.None? && failed then Some(OBSERVATION_FAILED) else reason
  }

  ghost function Sampled(leader: Pid, c: Course, o: Observation): Course {
    c.(knows := Apply(leader, c.knows, AsEvent(o)), reason := Blamed(c.reason, o.None?))
  }

  /** The launched group is signalled while it is open; the kernel may say that it is empty, or refuse. */
  function GroupSignaled(c: Course, number: nat, answer: Kernel): Course {
    if !c.knows.groupOpen then c
    else match answer
      case Delivered => c.(signals := c.signals + [ToGroup(number)])
      case NoProcess => c.(knows := c.knows.(groupOpen := false))
      case Refused => c.(raised := true)
  }

  ghost function MembersSignaled(c: Course, number: nat, a: Answers): Course {
    var r := MemberSignals(number, a, InOrder(c.knows.known));
    c.(signals := c.signals + r.1, reason := Blamed(c.reason, !r.0))
  }

  function ChildSignaled(c: Course, number: nat, answer: Kernel): Course {
    match answer
    case Delivered => c.(signals := c.signals + [ToChild(number)])
    case NoProcess => c
    case Refused => c.(raised := true)
  }

  /** One round of signals after its own sample: to the group, to the members, to the child. */
  ghost function Signaled(c: Course, number: nat, a: Answers): Course {
    var grouped := GroupSignaled(c, number, a.group);
    if grouped.raised then grouped else ChildSignaled(MembersSignaled(grouped, number, a), number, a.child)
  }

  ghost function Step(leader: Pid, c: Course, e: Encounter): Course {
    if c.raised then c
    else match e
      case Observed(o) => Sampled(leader, c, o)
      case Signaling(number, a) => Signaled(Sampled(leader, c, a.sample), number, a)
  }

  ghost function After(leader: Pid, c: Course, met: seq<Encounter>): Course {
    if met == [] then c else Step(leader, After(leader, c, met[..|met| - 1]), met[|met| - 1])
  }

  lemma {:induction false} AfterAppend(leader: Pid, c: Course, a: seq<Encounter>, b: seq<Encounter>)
    ensures After(leader, c, a + b) == After(leader, After(leader, c, a), b)
    decreases |b|
  {
    if b == [] {
      assert a + b == a;
    } else {
      assert (a + b)[..|a + b| - 1] == a + b[..|b| - 1];
      AfterAppend(leader, c, a, b[..|b| - 1]);
    }
  }

  lemma AfterOne(leader: Pid, c: Course, e: Encounter)
    ensures After(leader, c, [e]) == Step(leader, c, e)
  {
    assert [e][..0] == [];
  }

  lemma {:induction false} AfterRaised(leader: Pid, c: Course, met: seq<Encounter>)
    requires c.raised
    ensures After(leader, c, met) == c
  {
    if met != [] { AfterRaised(leader, c, met[..|met| - 1]); }
  }

  // ---------------------------------------------------------------- the three loops

  predicate Remains(c: Course) { !c.raised && (c.knows.groupOpen || c.knows.known != {}) }

  function Waiting(turn: Turn): seq<Encounter> { [Observed(turn.sample)] }

  function Looking(o: Observation): seq<Encounter> { [Observed(o)] }

  function Killing(round: (Observation, Answers)): seq<Encounter> { [Observed(round.0), Signaling(SIGKILL, round.1)] }

  /** A loop that meets one round after another while something is left: where it ends, and after how many rounds. */
  ghost function Loop<T>(leader: Pid, c: Course, rounds: seq<T>, meets: T -> seq<Encounter>): (Course, nat)
    decreases |rounds|
  {
    if rounds == [] || !Remains(c) then (c, 0)
    else
      var rest := Loop(leader, After(leader, c, meets(rounds[0])), rounds[1..], meets);
      (rest.0, 1 + rest.1)
  }

  lemma LoopStep<T>(leader: Pid, c: Course, rounds: seq<T>, meets: T -> seq<Encounter>, used: nat)
    requires used < |rounds| && Remains(c)
    ensures var rest := Loop(leader, After(leader, c, meets(rounds[used])), rounds[used + 1..], meets);
            Loop(leader, c, rounds[used..], meets) == (rest.0, 1 + rest.1)
  {
    assert rounds[used..][1..] == rounds[used + 1..];
  }

  /** The rounds used are all up to the first moment at which nothing is left, or all there are. */
  ghost predicate UsedUp<T>(leader: Pid, c: Course, rounds: seq<T>, meets: T -> seq<Encounter>, used: nat) {
    && used <= |rounds|
    && (forall i :: 0 <= i < used ==> Remains(After(leader, c, FlatMap(rounds[..i], meets))))
    && (used < |rounds| ==> !Remains(After(leader, c, FlatMap(rounds[..used], meets))))
  }

  lemma FlatMapFirst<T>(leader: Pid, c: Course, rounds: seq<T>, meets: T -> seq<Encounter>, n: nat)
    requires 0 < n <= |rounds|
    ensures After(leader, c, FlatMap(rounds[..n], meets))
            == After(leader, After(leader, c, meets(rounds[0])), FlatMap(rounds[1..][..n - 1], meets))
  {
    assert rounds[..n] == [rounds[0]] + rounds[1..][..n - 1];
    FlatMapAppend([rounds[0]], rounds[1..][..n - 1], meets);
    FlatMapOne(rounds[0], meets);
    AfterAppend(leader, c, meets(rounds[0]), FlatMap(rounds[1..][..n - 1], meets));
  }

  lemma {:induction false} LoopMeans<T>(leader: Pid, c: Course, rounds: seq<T>, meets: T -> seq<Encounter>)
    ensures var r := Loop(leader, c, rounds, meets);
            UsedUp(leader, c, rounds, meets, r.1) && r.0 == After(leader, c, FlatMap(rounds[..r.1], meets))
    // It goes on while something is left, and only then.
    ensures var r := Loop(leader, c, rounds, meets);
            && (r.1 < |rounds| ==> r.0.raised || (!r.0.knows.groupOpen && r.0.knows.known == {}))
            && forall i :: 0 <= i < r.1 ==>
                 var at := After(leader, c, FlatMap(rounds[..i], meets));
                 !at.raised && (at.knows.groupOpen || at.knows.known != {})
    decreases |rounds|
  {
    hide Step;
    var used := Loop(leader, c, rounds, meets).1;
    assert FlatMap(rounds[..0], meets) == [];
    if used > 0 {
      var next := After(leader, c, meets(rounds[0]));
      LoopMeans(leader, next, rounds[1..], meets);
      FlatMapFirst(leader, c, rounds, meets, used);
      forall i | 0 < i < used ensures Remains(After(leader, c, FlatMap(rounds[..i], meets))) {
        FlatMapFirst(leader, c, rounds, meets, i);
      }
    }
  }

  /** The waiting loop: where it ends, after how many turns, and whether a turn ended it. */
  ghost function WaitLoop(leader: Pid, c: Course, turns: seq<Turn>): (Course, nat, bool)
    decreases |turns|
  {
    if turns == [] then (c, 0, false)
    else
      var next := Sampled(leader, c, turns[0].sample);
      if EndsWaiting(turns[0]) then (next.(reason := Cause(turns[0])), 1, true)
      else
        var rest := WaitLoop(leader, next, turns[1..]);
        (rest.0, 1 + rest.1, rest.2)
  }

  /** The turns used are all up to the first that ends the waiting, or all there are. */
  predicate WaitedOut(turns: seq<Turn>, used: nat) {
    && used <= |turns|
    && (forall i :: 0 <= i < used - 1 ==> !EndsWaiting(turns[i]))
    && (used < |turns| ==> used > 0 && EndsWaiting(turns[used - 1]))
  }

  lemma {:induction false} WaitMeans(leader: Pid, c: Course, turns: seq<Turn>)
    requires c.reason.None? && !c.raised
    ensures var r := WaitLoop(leader, c, turns);
            && WaitedOut(turns, r.1) && (r.2 <==> r.1 > 0 && EndsWaiting(turns[r.1 - 1]))
            && r.0 == After(leader, c, FlatMap(turns[..r.1], Waiting))
                      .(reason := if r.2 then Cause(turns[r.1 - 1]) else None)
    // It waits through every turn with a table, no signal, time left and the command still there.
    ensures var r := WaitLoop(leader, c, turns);
            forall i :: 0 <= i < r.1 ==>
              ((r.2 && i == r.1 - 1)
               <==> turns[i].sample.None? || turns[i].pending.Some? || turns[i].timedOut || turns[i].exited)
    decreases |turns|
  {
    hide Sampled, Step;
    if turns == [] {
      assert FlatMap(turns[..0], Waiting) == [];
    } else {
      FirstTurn(leader, c, turns[0]);
      if EndsWaiting(turns[0]) {
        WaitEndsAtOnce(leader, c, turns);
      } else {
        WaitMeans(leader, Sampled(leader, c, turns[0].sample), turns[1..]);
        FlatMapFirst(leader, c, turns, Waiting, WaitLoop(leader, c, turns).1);
      }
    }
  }

  /** What the first turn does, and that it blames nothing unless it ends the waiting. */
  lemma FirstTurn(leader: Pid, c: Course, turn: Turn)
    requires c.reason.None? && !c.raised
    ensures After(leader, c, Waiting(turn)) == Sampled(leader, c, turn.sample)
    ensures !EndsWaiting(turn) ==> Sampled(leader, c, turn.sample).reason.None?
    ensures !Sampled(leader, c, turn.sample).raised
  {
    hide Apply;
    AfterOne(leader, c, Observed(turn.sample));
  }

  lemma WaitEndsAtOnce(leader: Pid, c: Course, turns: seq<Turn>)
    requires turns != [] && EndsWaiting(turns[0])
             && After(leader, c, Waiting(turns[0])) == Sampled(leader, c, turns[0].sample)
    ensures WaitLoop(leader, c, turns) == (Sampled(leader, c, turns[0].sample).(reason := Cause(turns[0])), 1, true)
    ensures After(leader, c, FlatMap(turns[..1], Waiting)) == Sampled(leader, c, turns[0].sample)
  {
    hide Sampled, Step, After;
    assert turns[..1] == [turns[0]];
    FlatMapOne(turns[0], Waiting);
  }

  /** How many turns and rounds were used. */
  datatype Used = Used(turns: nat, graces: nat, rounds: nat)

  /** Everything the world is asked, in order of time. */
  datatype World = World(turns: seq<Turn>, term: Answers, graces: seq<Observation>, kill: Answers,
                         rounds: seq<(Observation, Answers)>, late: Option<nat>, status: int)

  ghost function Waited(leader: Pid, w: World, used: Used): Course
    requires 0 < used.turns <= |w.turns|
  {
    After(leader, START, FlatMap(w.turns[..used.turns], Waiting)).(reason := Cause(w.turns[used.turns - 1]))
  }

  /** What is met after the waiting, up to the last loop. */
  function Terminating(w: World, used: Used): seq<Encounter>
    requires 0 < used.turns <= |w.turns| && used.graces <= |w.graces|
  {
    [Signaling(FirstSignal(w.turns[used.turns - 1]), w.term)]
    + FlatMap(w.graces[..used.graces], Looking)
    + [Signaling(SIGKILL, w.kill)]
  }

  /** What is met after the waiting. */
  function Ending(w: World, used: Used): seq<Encounter>
    requires 0 < used.turns <= |w.turns| && used.graces <= |w.graces| && used.rounds <= |w.rounds|
  {
    Terminating(w, used) + FlatMap(w.rounds[..used.rounds], Killing)
  }

  /** Every loop went on exactly as long as something was left. */
  ghost predicate Followed(leader: Pid, w: World, used: Used) {
    && WaitedOut(w.turns, used.turns)
    && (used.turns > 0 && EndsWaiting(w.turns[used.turns - 1]) ==>
          var first := Signaling(FirstSignal(w.turns[used.turns - 1]), w.term);
          var signaled := Step(leader, Waited(leader, w, used), first);
          && UsedUp(leader, signaled, w.graces, Looking, used.graces)
          && var killed := After(leader, Waited(leader, w, used), Terminating(w, used));
             UsedUp(leader, killed, w.rounds, Killing, used.rounds))
  }

  // ---------------------------------------------------------------- what every course keeps

  /** The kernel refuses a signal outright here: to the group, still open after the sample, or to the child. */
  ghost predicate Refuses(leader: Pid, c: Course, e: Encounter) {
    !c.raised && e.Signaling?
    && ((Sampled(leader, c, e.answers.sample).knows.groupOpen && e.answers.group.Refused?) || e.answers.child.Refused?)
  }

  ghost predicate WasRefused(leader: Pid, c: Course, met: seq<Encounter>) {
    exists i :: 0 <= i < |met| && Refuses(leader, After(leader, c, met[..i]), met[i])
  }

  lemma RoundRaises(c: Course, number: nat, a: Answers)
    requires !c.raised
    ensures Signaled(c, number, a).raised <==> (c.knows.groupOpen && a.group.Refused?) || a.child.Refused?
  {
    hide MemberSignals, InOrder;
  }

  lemma StepRaises(leader: Pid, c: Course, e: Encounter)
    ensures Step(leader, c, e).raised <==> c.raised || Refuses(leader, c, e)
  {
    hide Apply, Signaled;
    if e.Signaling? && !c.raised { RoundRaises(Sampled(leader, c, e.answers.sample), e.number, e.answers); }
  }

  lemma RefusedStep(leader: Pid, c: Course, met: seq<Encounter>)
    requires met != []
    ensures var last := |met| - 1;
            WasRefused(leader, c, met)
            <==> WasRefused(leader, c, met[..last]) || Refuses(leader, After(leader, c, met[..last]), met[last])
  {
    hide Refuses, After;
    var before := met[..|met| - 1];
    assert forall i :: 0 <= i < |before| ==> before[..i] == met[..i] && before[i] == met[i];
  }

  /** A supervision is given up exactly when the kernel refused a signal to the open group or to the child. */
  lemma {:induction false} RaisedWhenRefused(leader: Pid, c: Course, met: seq<Encounter>)
    ensures After(leader, c, met).raised <==> c.raised || WasRefused(leader, c, met)
  {
    hide Step, WasRefused, Refuses;
    if met == [] {
      NothingRefused(leader, c);
    } else {
      RaisedWhenRefused(leader, c, met[..|met| - 1]);
      RefusedStep(leader, c, met);
      StepRaises(leader, After(leader, c, met[..|met| - 1]), met[|met| - 1]);
    }
  }

  lemma NothingRefused(leader: Pid, c: Course)
    ensures !WasRefused(leader, c, [])
  {
  }

  /** What one encounter tells about ownership. */
  ghost function Told(leader: Pid, c: Course, e: Encounter): seq<Event> {
    if c.raised then []
    else match e
      case Observed(o) => [AsEvent(o)]
      case Signaling(_, a) =>
        var gone := Sampled(leader, c, a.sample).knows.groupOpen && a.group.NoProcess?;
        [AsEvent(a.sample)] + if gone then [GroupGone] else []
  }

  ghost function AllTold(leader: Pid, c: Course, met: seq<Encounter>): seq<Event> {
    if met == [] then []
    else AllTold(leader, c, met[..|met| - 1]) + Told(leader, After(leader, c, met[..|met| - 1]), met[|met| - 1])
  }

  lemma RunOne(leader: Pid, k: Knowledge, e: Event)
    ensures Run(leader, k, [e]) == Apply(leader, k, e)
  {
    assert [e][..0] == [];
  }

  lemma RoundKnows(c: Course, number: nat, a: Answers)
    ensures Signaled(c, number, a).knows
            == if c.knows.groupOpen && a.group.NoProcess? then c.knows.(groupOpen := false) else c.knows
  {
    hide MemberSignals;
  }

  lemma {:induction false} StepIsRun(leader: Pid, c: Course, e: Encounter)
    ensures Step(leader, c, e).knows == Run(leader, c.knows, Told(leader, c, e))
  {
    if !c.raised && e.Signaling? {
      var sampled := Sampled(leader, c, e.answers.sample);
      RoundKnows(sampled, e.number, e.answers);
      RunOne(leader, c.knows, AsEvent(e.answers.sample));
      RunOne(leader, sampled.knows, GroupGone);
      RunAppend(leader, c.knows, [AsEvent(e.answers.sample)], [GroupGone]);
      assert [AsEvent(e.answers.sample)] + [] == [AsEvent(e.answers.sample)];
    } else if !c.raised {
      RunOne(leader, c.knows, AsEvent(e.table));
    }
  }

  /** Signals and causes aside, a course is a run of the observations and of the kernel's word on the group. */
  lemma {:induction false} CourseIsRun(leader: Pid, c: Course, met: seq<Encounter>)
    ensures After(leader, c, met).knows == Run(leader, c.knows, AllTold(leader, c, met))
  {
    hide Step;
    hide Told;
    if met != [] {
      var before := met[..|met| - 1];
      CourseIsRun(leader, c, before);
      StepIsRun(leader, After(leader, c, before), met[|met| - 1]);
      RunAppend(leader, c.knows, AllTold(leader, c, before), Told(leader, After(leader, c, before), met[|met| - 1]));
    }
  }

  /** This table shows the process gone. */
  predicate ShownGone(e: Encounter, id: Identity) {
    var table := if e.Observed? then e.table else e.answers.sample;
    table.Some? && !Live(table.value, id)
  }

  lemma {:induction false} SampledKeeps(leader: Pid, c: Course, o: Observation, id: Identity)
    requires id in c.knows.known && (o.None? || Live(o.value, id))
    ensures id in Sampled(leader, c, o).knows.known
  {
    var event := AsEvent(o);
    assert [event][..0] == [] && Run(leader, c.knows, [event]) == Apply(leader, c.knows, event);
    KnownUntilGone(leader, c.knows, [event], id);
  }

  lemma {:induction false} KeptUnlessShownGone(leader: Pid, c: Course, e: Encounter, id: Identity)
    requires id in c.knows.known && !ShownGone(e, id)
    ensures id in Step(leader, c, e).knows.known
  {
    hide Apply;
    SampledKeeps(leader, c, if e.Observed? then e.table else e.answers.sample, id);
  }

  /** A process known at any moment and not known at the end was shown gone by a table taken in between. */
  lemma {:induction false} DroppedOnlyWhenShownGone(leader: Pid, c: Course, met: seq<Encounter>, n: nat, id: Identity)
    requires n <= |met| && id in After(leader, c, met[..n]).knows.known && id !in After(leader, c, met).knows.known
    ensures exists m :: n <= m < |met| && ShownGone(met[m], id)
  {
    var last := |met| - 1;
    assert met[..|met|] == met;
    if n == |met| { return; }
    if id in After(leader, c, met[..last]).knows.known {
      if !ShownGone(met[last], id) { KeptUnlessShownGone(leader, After(leader, c, met[..last]), met[last], id); }
    } else {
      assert met[..last][..n] == met[..n];
      DroppedOnlyWhenShownGone(leader, c, met[..last], n, id);
    }
  }

  /** This round of signals is cut short. */
  ghost predicate RoundFails(c: Course, number: nat, a: Answers) {
    var grouped := GroupSignaled(c, number, a.group);
    !grouped.raised && exists id <- grouped.knows.known :: CutsShort(a, id)
  }

  /** A sample failed here, or a round of signals was cut short. */
  ghost predicate Fails(leader: Pid, c: Course, e: Encounter) {
    !c.raised && (
      match e
      case Observed(o) => o.None?
      case Signaling(number, a) => a.sample.None? || RoundFails(Sampled(leader, c, a.sample), number, a))
  }

  ghost predicate Failed(leader: Pid, c: Course, met: seq<Encounter>) {
    exists i :: 0 <= i < |met| && Fails(leader, After(leader, c, met[..i]), met[i])
  }

  lemma FailedStep(leader: Pid, c: Course, met: seq<Encounter>)
    requires met != []
    ensures var last := |met| - 1;
            Failed(leader, c, met) <==>
                Failed(leader, c, met[..last]) || Fails(leader, After(leader, c, met[..last]), met[last])
  {
    hide Fails, After;
    var before := met[..|met| - 1];
    assert forall i :: 0 <= i < |before| ==> before[..i] == met[..i] && before[i] == met[i];
  }

  lemma RoundReason(c: Course, number: nat, a: Answers)
    requires !c.raised
    ensures Signaled(c, number, a).reason == Blamed(c.reason, RoundFails(c, number, a))
  {
    hide CutsShort;
    hide MemberSignals;
    hide InOrder;
    var known := GroupSignaled(c, number, a.group).knows.known;
    MemberSignalsMean(number, a, InOrder(known));
    forall id ensures id in InOrder(known) <==> id in known { InOrderElements(known, id); }
  }

  lemma StepReason(leader: Pid, c: Course, e: Encounter)
    ensures Step(leader, c, e).reason == Blamed(c.reason, Fails(leader, c, e))
  {
    hide Apply;
    if e.Signaling? && !c.raised { RoundReason(Sampled(leader, c, e.answers.sample), e.number, e.answers); }
  }

  /** The first cause is kept; without one it is a failed observation exactly when there was one. */
  lemma {:induction false} ReasonIsTheFirstCause(leader: Pid, c: Course, met: seq<Encounter>)
    ensures After(leader, c, met).reason == Blamed(c.reason, Failed(leader, c, met))
  {
    if met != [] {
      ReasonIsTheFirstCause(leader, c, met[..|met| - 1]);
      FailedStep(leader, c, met);
      StepReason(leader, After(leader, c, met[..|met| - 1]), met[|met| - 1]);
    }
  }

  /**
   A signal may be sent, and the kernel delivers it: to the group while it is open, to a known member that a table
   taken just before shows alive, and to the child.
   */
  ghost predicate MaySignal(c: Course, number: nat, a: Answers, s: Signal) {
    s.number == number &&
    match s
    case ToGroup(_) => c.knows.groupOpen && a.group.Delivered?
    case ToMember(_, id) => id in c.knows.known && Hits(a, id)
    case ToChild(_) => a.child.Delivered?
  }

  ghost predicate Allowed(leader: Pid, c: Course, e: Encounter, s: Signal) {
    !c.raised && e.Signaling? && MaySignal(Sampled(leader, c, e.answers.sample), e.number, e.answers, s)
  }

  /** What one round sends, in order. */
  ghost function RoundSends(c: Course, number: nat, a: Answers): seq<Signal> {
    (if c.knows.groupOpen && a.group.Delivered? then [ToGroup(number)] else [])
    + (if c.knows.groupOpen && a.group.Refused? then []
       else MemberSignals(number, a, InOrder(c.knows.known)).1 + if a.child.Delivered? then [ToChild(number)] else [])
  }

  lemma RoundSignals(c: Course, number: nat, a: Answers)
    requires !c.raised
    ensures Signaled(c, number, a).signals == c.signals + RoundSends(c, number, a)
  {
    hide MemberSignals, InOrder;
  }

  lemma RoundSendsAllowed(c: Course, number: nat, a: Answers, s: Signal)
    requires s in RoundSends(c, number, a)
    ensures MaySignal(c, number, a, s)
  {
    hide InOrder;
    var ids := InOrder(c.knows.known);
    if s in MemberSignals(number, a, ids).1 {
      MemberSignalsAllowed(number, a, ids, s);
      InOrderElements(c.knows.known, s.id);
    }
  }

  lemma OneMoreDistinct<T>(x: T, s: seq<T>)
    requires NoRepeats(s) && x !in s
    ensures NoRepeats([x] + s)
  {
  }

  lemma {:induction false} InOrderDistinct(ids: set<Identity>)
    ensures NoRepeats(InOrder(ids))
  {
    if ids != {} {
      LeastExists(ids);
      var first := InOrder(ids)[0];
      InOrderDistinct(ids - {first});
      InOrderElements(ids - {first}, first);
      OneMoreDistinct(first, InOrder(ids - {first}));
    }
  }

  lemma {:induction false} MemberSignalsDistinct(number: nat, a: Answers, ids: seq<Identity>)
    requires NoRepeats(ids)
    ensures NoRepeats(MemberSignals(number, a, ids).1)
  {
    if ids != [] {
      var rest, first := MemberSignals(number, a, ids[1..]).1, ToMember(number, ids[0]);
      MemberSignalsDistinct(number, a, ids[1..]);
      assert first !in rest by {
        if first in rest { MemberSignalsAllowed(number, a, ids[1..], first); }
      }
      OneMoreDistinct(first, rest);
      assert [] + rest == rest;
      assert MemberSignals(number, a, ids).1
             == if CutsShort(a, ids[0]) then [] else if Hits(a, ids[0]) then [first] + rest else rest;
    }
  }

  /** No round sends the same signal twice. */
  lemma RoundSendsOnce(c: Course, number: nat, a: Answers)
    ensures NoRepeats(RoundSends(c, number, a))
  {
    hide InOrder;
    var ids := InOrder(c.knows.known);
    InOrderDistinct(c.knows.known);
    MemberSignalsDistinct(number, a, ids);
    var members := MemberSignals(number, a, ids).1;
    forall s <- members ensures s.ToMember? { MemberSignalsAllowed(number, a, ids, s); }
    hide MemberSignals;
    var behind := members + if a.child.Delivered? then [ToChild(number)] else [];
    assert NoRepeats(behind) by { if a.child.Delivered? { LastDistinct(members, ToChild(number)); } }
    OneMoreDistinct(ToGroup(number), behind);
    assert [] + behind == behind && [ToGroup(number)] + [] == [ToGroup(number)];
  }

  lemma LastDistinct<T>(s: seq<T>, x: T)
    requires NoRepeats(s) && x !in s
    ensures NoRepeats(s + [x])
  {
  }

  /** One encounter only adds signals, each allowed there, and none twice. */
  lemma StepSignals(leader: Pid, c: Course, e: Encounter)
    ensures c.signals <= Step(leader, c, e).signals
    ensures forall k :: |c.signals| <= k < |Step(leader, c, e).signals| ==>
              Allowed(leader, c, e, Step(leader, c, e).signals[k])
    ensures NoRepeats(Step(leader, c, e).signals[|c.signals|..])
  {
    hide Apply, Signaled, RoundSends, MaySignal;
    if !c.raised && e.Signaling? {
      var sampled := Sampled(leader, c, e.answers.sample);
      RoundSignals(sampled, e.number, e.answers);
      RoundSendsOnce(sampled, e.number, e.answers);
      var sends := RoundSends(sampled, e.number, e.answers);
      assert (c.signals + sends)[|c.signals|..] == sends;
      forall s <- sends ensures MaySignal(sampled, e.number, e.answers, s) {
        RoundSendsAllowed(sampled, e.number, e.answers, s);
      }
    }
  }

  lemma {:induction false} SignalsOnlyGrow(leader: Pid, c: Course, met: seq<Encounter>, i: nat)
    requires i <= |met|
    ensures c.signals <= After(leader, c, met[..i]).signals <= After(leader, c, met).signals
    decreases |met|
  {
    hide Step;
    assert met[..|met|] == met;
    if met != [] {
      var before := met[..|met| - 1];
      StepSignals(leader, After(leader, c, before), met[|met| - 1]);
      SignalsOnlyGrow(leader, c, before, if i < |met| then i else |before|);
      assert i < |met| ==> before[..i] == met[..i];
    }
  }

  /** The sending at this position was made by this encounter, where it was allowed. */
  ghost predicate SentBy(leader: Pid, c: Course, met: seq<Encounter>, k: nat, i: nat) {
    && i < |met| && k < |After(leader, c, met).signals|
    && |After(leader, c, met[..i]).signals| <= k < |After(leader, c, met[..i + 1]).signals|
    && Allowed(leader, After(leader, c, met[..i]), met[i], After(leader, c, met).signals[k])
  }

  /** Every single sending was allowed at the moment it was made, repeated ones as well. */
  lemma {:induction false} SignalsAllowed(leader: Pid, c: Course, met: seq<Encounter>, k: nat)
    requires |c.signals| <= k < |After(leader, c, met).signals|
    ensures exists i: nat :: SentBy(leader, c, met, k, i)
    decreases |met|
  {
    hide Step, Allowed;
    assert met[..|met|] == met && After(leader, c, []) == c;
    var last := |met| - 1;
    var before := After(leader, c, met[..last]);
    StepSignals(leader, before, met[last]);
    if k < |before.signals| {
      SignalsAllowed(leader, c, met[..last], k);
      var i: nat :| SentBy(leader, c, met[..last], k, i);
      SentEarlier(leader, c, met, k, i);
    } else {
      assert SentBy(leader, c, met, k, last);
    }
  }

  lemma SentEarlier(leader: Pid, c: Course, met: seq<Encounter>, k: nat, i: nat)
    requires met != [] && SentBy(leader, c, met[..|met| - 1], k, i)
    ensures SentBy(leader, c, met, k, i)
  {
    hide Step, Allowed, After;
    var last := |met| - 1;
    assert met[..last][..i] == met[..i] && met[..last][..i + 1] == met[..i + 1];
    SignalsOnlyGrow(leader, c, met, last);
  }

  /** Once the group is closed, it is never opened and never signalled again, whatever was sent before. */
  lemma {:induction false} ClosedGroupIsLeftAlone(leader: Pid, c: Course, met: seq<Encounter>)
    requires !c.knows.groupOpen
    ensures !After(leader, c, met).knows.groupOpen && c.signals <= After(leader, c, met).signals
    ensures forall k :: |c.signals| <= k < |After(leader, c, met).signals| ==>
                          !After(leader, c, met).signals[k].ToGroup?
  {
    hide Step;
    if met != [] {
      var before := After(leader, c, met[..|met| - 1]);
      ClosedGroupIsLeftAlone(leader, c, met[..|met| - 1]);
      ClosedStep(leader, before, met[|met| - 1]);
    }
  }

  lemma ClosedStep(leader: Pid, c: Course, e: Encounter)
    requires !c.knows.groupOpen
    ensures !Step(leader, c, e).knows.groupOpen && c.signals <= Step(leader, c, e).signals
    ensures forall k :: |c.signals| <= k < |Step(leader, c, e).signals| ==> !Step(leader, c, e).signals[k].ToGroup?
  {
    hide MemberSignals, Owned;
    StepSignals(leader, c, e);
    if !c.raised && e.Signaling? { RoundKnows(Sampled(leader, c, e.answers.sample), e.number, e.answers); }
    hide Signaled;
  }

  /**
   An encounter closes the open group exactly when its table shows no live process of the group, or another process
   under the leader's number than the one remembered, or when the kernel says that the group is empty.
   */
  lemma GroupClosedBy(leader: Pid, c: Course, e: Encounter)
    requires c.knows.groupOpen && !c.raised
    ensures var table := if e.Observed? then e.table else e.answers.sample;
            var root := Step(leader, c, e).knows.root;
            Step(leader, c, e).knows.groupOpen <==>
              && (table.Some? ==>
                    && (exists row <- table.value :: row.group == leader && !row.zombie)
                    && (forall row <- table.value :: row.pid == leader && root.Some? ==> row.birth == root.value.birth))
              && !(e.Signaling? && e.answers.group.NoProcess?)
  {
    hide Owned, MemberSignals;
    var table := if e.Observed? then e.table else e.answers.sample;
    if table.Some? { SeenMeans(leader, c.knows, table.value); }
    if e.Signaling? { RoundKnows(Sampled(leader, c, table), e.number, e.answers); }
    hide Apply, Signaled;
  }

  /**
   A round delivers what the kernel lets through: to the group that its table leaves open, to the child, and to every
   process known after the table that a further table still shows alive, unless one of them cuts the round short.
   */
  lemma RoundDelivers(leader: Pid, c: Course, number: nat, a: Answers)
    requires !c.raised
    ensures var sampled, next := Step(leader, c, Observed(a.sample)), Step(leader, c, Signaling(number, a));
            var refused := sampled.knows.groupOpen && a.group.Refused?;
            && c.signals <= next.signals
            && (sampled.knows.groupOpen && a.group.Delivered? ==> ToGroup(number) in next.signals[|c.signals|..])
            && (a.child.Delivered? && !refused ==> ToChild(number) in next.signals[|c.signals|..])
            && (!refused && (forall id <- sampled.knows.known ::
                               && a.revalidate(id).Some?
                               && (Live(a.revalidate(id).value, id) ==> !a.kill(id).Refused?)) ==>
                  forall id <- sampled.knows.known ::
                    Live(a.revalidate(id).value, id) && a.kill(id).Delivered? ==>
                      ToMember(number, id) in next.signals[|c.signals|..])
  {
    var sampled := Sampled(leader, c, a.sample);
    var ids := InOrder(sampled.knows.known);
    RoundSignals(sampled, number, a);
    MemberSignalsMean(number, a, ids);
    forall id ensures id in ids <==> id in sampled.knows.known { InOrderElements(sampled.knows.known, id); }
    hide MemberSignals, InOrder, Apply, Signaled;
    assert Step(leader, c, Signaling(number, a)).signals[|c.signals|..] == RoundSends(sampled, number, a);
  }

  /** A refused signal to the open group is uncaught: the group stays open, with nothing sent. */
  lemma RefusedSignalAbandonsTheGroup(leader: Pid, number: nat, a: Answers)
    requires a.sample.None? && a.group.Refused?
    ensures Step(leader, START, Signaling(number, a)) == START.(reason := Some(OBSERVATION_FAILED), raised := true)
  {
    hide Owned;
  }

  // ---------------------------------------------------------------- the supervisor

  datatype Outcome = Exited(code: int) | Raised | Unfinished

  /** The signal that ended the waiting, or else the first one after it. */
  function FirstPending(turn: Turn, late: Option<nat>): Option<nat> {
    if turn.pending.Some? then turn.pending else late
  }

  class Supervisor {
    const leader: Pid
    var known: set<Identity>
    var root: Option<Identity>
    var groupOpen: bool
    var signals: seq<Signal>
    var reason: Option<int>
    var raised: bool

    ghost function Now(): Course
      reads this
    {
      Course(Knowledge(known, root, groupOpen), signals, reason, raised)
    }

    /** At launch the command's group is open and nothing is known. */
    constructor (leader: Pid)
      ensures this.leader == leader && Now() == START
    {
      this.leader, known, root, groupOpen, signals, reason, raised := leader, {}, None, true, [], None, false;
    }

    /** One successful observation. A failed one raises before anything is assigned. */
    method Sample(o: Observation) returns (ok: bool)
      modifies this`known, this`root, this`groupOpen
      ensures ok == o.Some? && Now().knows == Apply(leader, old(Now()).knows, AsEvent(o))
      ensures ok ==> (groupOpen <==>
                        && old(groupOpen) && (exists row <- o.value :: row.group == leader && !row.zombie)
                        && (forall row <- o.value :: row.pid == leader && root.Some? ==> row.birth == root.value.birth))
      ensures !ok ==> known == old(known) && root == old(root) && groupOpen == old(groupOpen)
    {
      if o.None? { return false; }
      var rows := o.value;
      if root.None? && groupOpen { root := FirstLeader(rows, leader); }
      if LeaderReused(rows, leader, root) { groupOpen := false; }
      known := Members(rows, leader, known, root, groupOpen);
      if !exists row <- rows :: row.group == leader && !row.zombie { groupOpen := false; }
      return true;
    }

    /** A sample whose failure is only noted: the first cause is kept. */
    method Look(o: Observation)
      modifies this
      ensures Now() == Sampled(leader, old(Now()), o)
    {
      var ok := Sample(o);
      if !ok && reason.None? { reason := Some(OBSERVATION_FAILED); }
    }

    method Least(ids: set<Identity>) returns (least: Identity)
      requires ids != {}
      ensures IsLeast(least, ids)
    {
      LeastExists(ids);
      least :| least in ids && forall id <- ids :: IdentityLeq(least, id);
    }

    method SignalMember(number: nat, a: Answers, id: Identity) returns (ok: bool)
      modifies this`signals
      ensures ok == !CutsShort(a, id)
      ensures signals == old(signals) + if ok && Hits(a, id) then [ToMember(number, id)] else []
    {
      var rows := a.revalidate(id);
      if rows.None? { return false; }
      if !Live(rows.value, id) { return true; }
      match a.kill(id) {
        case Delivered => signals := signals + [ToMember(number, id)];
        case NoProcess =>
        case Refused => return false;
      }
      return true;
    }

    /** Signals the known identities in order, each only if a table taken just before still shows it alive. */
    method SignalMembers(number: nat, a: Answers) returns (ok: bool)
      modifies this`signals
      ensures var all := MemberSignals(number, a, InOrder(known)); ok == all.0 && signals == old(signals) + all.1
    {
      hide Hits;
      hide InOrder;
      hide MemberSignals;
      NoMembers(number, a);
      ok := true;
      var remaining := known;
      ghost var all, sent := MemberSignals(number, a, InOrder(known)), [];
      while ok && remaining != {}
        invariant signals == old(signals) + sent
        invariant var rest := if ok then MemberSignals(number, a, InOrder(remaining)) else (false, []);
                  all.0 == rest.0 && all.1 == sent + rest.1
        decreases ok, |remaining|
      {
        var id := Least(remaining);
        MemberSignalsStep(number, a, id, remaining);
        ok := SignalMember(number, a, id);
        remaining := remaining - {id};
        sent := sent + if ok && Hits(a, id) then [ToMember(number, id)] else [];
      }
    }

    /** One round of signals: to the group while it is open, to the members, and to the child until it is reaped. */
    method Send(number: nat, a: Answers)
      requires !raised
      modifies this
      ensures Now() == Step(leader, old(Now()), Signaling(number, a))
    {
      Look(a.sample);
      SendSampled(number, a);
    }

    method SendSampled(number: nat, a: Answers)
      requires !raised
      modifies this
      ensures Now() == Signaled(old(Now()), number, a)
    {
      if groupOpen {
        match a.group {
          case Delivered => signals := signals + [ToGroup(number)];
          case NoProcess => groupOpen := false;
          case Refused => raised := true; return;
        }
      }
      var ok := SignalMembers(number, a);
      if !ok && reason.None? { reason := Some(OBSERVATION_FAILED); }
      match a.child {
        case Delivered => signals := signals + [ToChild(number)];
        case NoProcess =>
        case Refused => raised := true;
      }
    }

    /** The waiting loop: until a signal, the timeout or the command's end, or until ownership cannot be inspected. */
    method Wait(turns: seq<Turn>) returns (used: nat, stopped: bool)
      requires reason.None? && !raised
      modifies this
      ensures (Now(), used, stopped) == WaitLoop(leader, old(Now()), turns) && !raised
    {
      used := 0;
      while used < |turns|
        invariant used <= |turns| && reason.None? && !raised
        invariant var all, rest := WaitLoop(leader, old(Now()), turns), WaitLoop(leader, Now(), turns[used..]);
                  all == (rest.0, used + rest.1, rest.2)
      {
        var turn := turns[used];
        assert turns[used..][1..] == turns[used + 1..];
        used := used + 1;
        var ok := Sample(turn.sample);
        if !ok { reason := Some(OBSERVATION_FAILED); return used, true; }
        if turn.pending.Some? { reason := Some(SIGNALED + turn.pending.value); return used, true; }
        if turn.timedOut { reason := Some(TIMED_OUT); return used, true; }
        if turn.exited { return used, true; }
      }
      return used, false;
    }

    /** The grace period after the first signals: samples until nothing is left or the time is over. */
    method Grace(tables: seq<Observation>) returns (used: nat)
      requires !raised
      modifies this
      ensures (Now(), used) == Loop(leader, old(Now()), tables, Looking) && !raised
    {
      hide Apply;
      used := 0;
      while used < |tables| && (groupOpen || known != {})
        invariant used <= |tables| && !raised
        invariant var all, rest := Loop(leader, old(Now()), tables, Looking),
                  Loop(leader, Now(), tables[used..], Looking);
                  all == (rest.0, used + rest.1)
      {
        LoopStep(leader, Now(), tables, Looking, used);
        AfterOne(leader, Now(), Observed(tables[used]));
        Look(tables[used]);
        used := used + 1;
      }
    }

    method KillRound(round: (Observation, Answers))
      requires !raised
      modifies this
      ensures Now() == After(leader, old(Now()), Killing(round))
    {
      RoundTaken(leader, Now(), round);
      Look(round.0);
      Send(SIGKILL, round.1);
    }

    /** The last loop: killing until the group is closed and nothing is known, for as long as there are answers. */
    method Drain(rounds: seq<(Observation, Answers)>) returns (used: nat)
      requires !raised
      modifies this
      ensures (Now(), used) == Loop(leader, old(Now()), rounds, Killing)
    {
      ghost var all := Loop(leader, Now(), rounds, Killing);
      hide Step;
      used := 0;
      while used < |rounds| && !raised && (groupOpen || known != {})
        invariant used <= |rounds|
        invariant var rest := Loop(leader, Now(), rounds[used..], Killing); all == (rest.0, used + rest.1)
      {
        LoopStep(leader, Now(), rounds, Killing, used);
        KillRound(rounds[used]);
        used := used + 1;
      }
    }

    /** The rounds after the waiting, up to the last one, or to a refused signal. */
    method Terminate(w: World, turn: Turn) returns (graces: nat, rounds: nat)
      requires !raised
      modifies this
      ensures (Now(), graces, rounds) == Terminated(leader, old(Now()), w, turn)
    {
      Send(FirstSignal(turn), w.term);
      if raised { return 0, 0; }
      graces := Grace(w.graces);
      Send(SIGKILL, w.kill);
      if raised { return graces, 0; }
      rounds := Drain(w.rounds);
    }

    /**
     The whole supervision, as far as these answers go. There is an exit code exactly when nothing owned is left and
     the kernel refused no signal to the open group or the child; every process ever known was then seen to be gone.
     The code is that of the first signal, or else of the first cause, or else the command's own.
     */
    method Supervise(w: World) returns (ending: Outcome, used: Used)
      requires Now() == START
      modifies this
      ensures Followed(leader, w, used)
      ensures !Stopped(w, used) ==>
                && ending.Unfinished?
                && Now() == After(leader, START, FlatMap(w.turns[..used.turns], Waiting)).(reason := None)
      ensures Stopped(w, used) ==>
                var refused := WasRefused(leader, Waited(leader, w, used), Ending(w, used));
                && Now() == After(leader, Waited(leader, w, used), Ending(w, used))
                && (ending.Raised? <==> refused)
                && (ending.Exited? <==> !refused && !groupOpen && known == {})
      ensures ending.Exited? ==> AllShownGone(leader, w, used) && ending.code == ExitCode(leader, w, used)
    {
      hide Step, After, WasRefused;
      var turns, stopped := Wait(w.turns);
      WaitMeans(leader, START, w.turns);
      used := Used(turns, 0, 0);
      if !stopped { return Unfinished, used; }
      var turn := w.turns[turns - 1];
      ghost var waited := Now();
      var graces, rounds := Terminate(w, turn);
      used := Used(turns, graces, rounds);
      TerminatedMeans(leader, w, used, waited);
      RaisedWhenRefused(leader, waited, Ending(w, used));
      if raised { return Raised, used; }
      if groupOpen || known != {} { return Unfinished, used; }
      ReasonIsTheFirstCause(leader, waited, Ending(w, used));
      NothingLeft(leader, w, used);
      var first := FirstPending(turn, w.late);
      ending := Exited(if first.Some? then SIGNALED + first.value
                       else if reason.Some? then reason.value
                       else if w.status < 0 then SIGNALED - w.status else w.status);
    }
  }

  /** The first signal counts, then the first cause, then the command's own status. */
  ghost function ExitCode(leader: Pid, w: World, used: Used): int
    requires Stopped(w, used)
  {
    var turn := w.turns[used.turns - 1];
    if FirstPending(turn, w.late).Some? then SIGNALED + FirstPending(turn, w.late).value
    else if Cause(turn).Some? then Cause(turn).value
    else if Failed(leader, Waited(leader, w, used), Ending(w, used)) then OBSERVATION_FAILED
    else if w.status < 0 then SIGNALED - w.status else w.status
  }

  /** The same, case by case: 128 and the signal, 126 for a failed inspection, 124 for the timeout. */
  lemma ExitCodes(leader: Pid, w: World, used: Used)
    requires Stopped(w, used)
    ensures var turn := w.turns[used.turns - 1];
            ExitCode(leader, w, used) == if turn.pending.Some? then 128 + turn.pending.value
                                         else if w.late.Some? then 128 + w.late.value
                                         else if turn.sample.None? then 126
                                         else if turn.timedOut then 124
                                         else if Failed(leader, Waited(leader, w, used), Ending(w, used)) then 126
                                         else if w.status < 0 then 128 - w.status else w.status
  {
  }

  /**
   What is met after the waiting, place by place. The first round passes on the signal that ended the waiting, or
   terminates; then come the looks of the grace period; every later round kills, each after one more look.
   */
  lemma EndingMeans(w: World, used: Used)
    requires Stopped(w, used)
    ensures var met, turn := Ending(w, used), w.turns[used.turns - 1];
            && |met| == 2 + used.graces + 2 * used.rounds
            && met[0] == Signaling(if turn.sample.Some? && turn.pending.Some? then turn.pending.value else 15, w.term)
            && (forall i :: 0 <= i < used.graces ==> met[1 + i] == Observed(w.graces[i]))
            && met[1 + used.graces] == Signaling(9, w.kill)
            && forall i :: 0 <= i < used.rounds ==>
                 && met[2 + used.graces + 2 * i] == Observed(w.rounds[i].0)
                 && met[3 + used.graces + 2 * i] == Signaling(9, w.rounds[i].1)
  {
    LooksInPlace(w.graces[..used.graces]);
    KillsInPlace(w.rounds[..used.rounds]);
  }

  lemma {:induction false} LooksInPlace(tables: seq<Observation>)
    ensures var met := FlatMap(tables, Looking);
            |met| == |tables| && forall i :: 0 <= i < |tables| ==> met[i] == Observed(tables[i])
  {
    if tables != [] {
      LooksInPlace(tables[..|tables| - 1]);
    }
  }

  lemma {:induction false} KillsInPlace(rounds: seq<(Observation, Answers)>)
    ensures var met := FlatMap(rounds, Killing);
            && |met| == 2 * |rounds|
            && forall i :: 0 <= i < |rounds| ==>
                 met[2 * i] == Observed(rounds[i].0) && met[2 * i + 1] == Signaling(9, rounds[i].1)
  {
    if rounds != [] {
      KillsInPlace(rounds[..|rounds| - 1]);
    }
  }

  /** Where the rounds after the waiting lead, and how many were used. */
  ghost function Terminated(leader: Pid, c: Course, w: World, turn: Turn): (Course, nat, nat) {
    var grace := Loop(leader, Step(leader, c, Signaling(FirstSignal(turn), w.term)), w.graces, Looking);
    var drain := Loop(leader, Step(leader, grace.0, Signaling(SIGKILL, w.kill)), w.rounds, Killing);
    (drain.0, grace.1, drain.1)
  }

  predicate Stopped(w: World, used: Used) {
    && 0 < used.turns <= |w.turns| && EndsWaiting(w.turns[used.turns - 1])
    && used.graces <= |w.graces| && used.rounds <= |w.rounds|
  }

  /** Everything that was met, in order. */
  function Everything(w: World, used: Used): seq<Encounter>
    requires Stopped(w, used)
  {
    FlatMap(w.turns[..used.turns], Waiting) + Ending(w, used)
  }

  /** Every process known at any moment was later shown gone by a table. */
  ghost predicate AllShownGone(leader: Pid, w: World, used: Used) {
    Stopped(w, used) &&
    forall n, id :: 0 <= n <= |Everything(w, used)| && id in After(leader, START, Everything(w, used)[..n]).knows.known
                    ==> exists m :: n <= m < |Everything(w, used)| && ShownGone(Everything(w, used)[m], id)
  }

  lemma StepSameKnowledge(leader: Pid, c: Course, d: Course, e: Encounter)
    requires c.knows == d.knows && c.raised == d.raised
    ensures Step(leader, c, e).knows == Step(leader, d, e).knows
            && Step(leader, c, e).raised == Step(leader, d, e).raised
  {
    hide Apply;
    hide MemberSignals;
  }

  lemma {:induction false} SameKnowledge(leader: Pid, c: Course, d: Course, met: seq<Encounter>)
    requires c.knows == d.knows && c.raised == d.raised
    ensures After(leader, c, met).knows == After(leader, d, met).knows
            && After(leader, c, met).raised == After(leader, d, met).raised
  {
    if met != [] {
      var last := |met| - 1;
      SameKnowledge(leader, c, d, met[..last]);
      StepSameKnowledge(leader, After(leader, c, met[..last]), After(leader, d, met[..last]), met[last]);
    }
  }

  lemma {:induction false} NothingLeft(leader: Pid, w: World, used: Used)
    requires Stopped(w, used) && After(leader, Waited(leader, w, used), Ending(w, used)).knows.known == {}
    ensures AllShownGone(leader, w, used)
  {
    var met, first := Everything(w, used), FlatMap(w.turns[..used.turns], Waiting);
    AfterAppend(leader, START, first, Ending(w, used));
    SameKnowledge(leader, Waited(leader, w, used), After(leader, START, first), Ending(w, used));
    forall n, id | 0 <= n <= |met| && id in After(leader, START, met[..n]).knows.known
      ensures exists m :: n <= m < |met| && ShownGone(met[m], id)
    {
      DroppedOnlyWhenShownGone(leader, START, met, n, id);
    }
  }

  lemma RoundTaken(leader: Pid, c: Course, round: (Observation, Answers))
    ensures After(leader, c, Killing(round))
            == Step(leader, Step(leader, c, Observed(round.0)), Signaling(SIGKILL, round.1))
  {
    assert Killing(round)[..1] == [Observed(round.0)];
    AfterOne(leader, c, Observed(round.0));
  }

  lemma TerminatingTaken(leader: Pid, w: World, used: Used)
    requires 0 < used.turns <= |w.turns| && used.graces <= |w.graces|
    ensures var first := Signaling(FirstSignal(w.turns[used.turns - 1]), w.term);
            var looked := After(leader, Step(leader, Waited(leader, w, used), first),
                                FlatMap(w.graces[..used.graces], Looking));
            After(leader, Waited(leader, w, used), Terminating(w, used))
            == Step(leader, looked, Signaling(SIGKILL, w.kill))
  {
    var c, term := Waited(leader, w, used), Signaling(FirstSignal(w.turns[used.turns - 1]), w.term);
    var looks := FlatMap(w.graces[..used.graces], Looking);
    AfterAppend(leader, c, [term] + looks, [Signaling(SIGKILL, w.kill)]);
    AfterAppend(leader, c, [term], looks);
    AfterOne(leader, c, term);
    AfterOne(leader, After(leader, c, [term] + looks), Signaling(SIGKILL, w.kill));
  }

  lemma TerminatedMeans(leader: Pid, w: World, used: Used, waited: Course)
    requires WaitedOut(w.turns, used.turns) && used.turns > 0 && EndsWaiting(w.turns[used.turns - 1])
    requires waited == Waited(leader, w, used)
    requires used.graces == Terminated(leader, waited, w, w.turns[used.turns - 1]).1
    requires used.rounds == Terminated(leader, waited, w, w.turns[used.turns - 1]).2
    ensures Stopped(w, used) && Followed(leader, w, used)
    ensures Terminated(leader, waited, w, w.turns[used.turns - 1]).0 == After(leader, waited, Ending(w, used))
  {
    var first := Step(leader, waited, Signaling(FirstSignal(w.turns[used.turns - 1]), w.term));
    LoopMeans(leader, first, w.graces, Looking);
    TerminatingTaken(leader, w, used);
    LoopMeans(leader, After(leader, waited, Terminating(w, used)), w.rounds, Killing);
    AfterAppend(leader, waited, Terminating(w, used), FlatMap(w.rounds[..used.rounds], Killing));
  }
}
