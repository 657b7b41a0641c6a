/** Which processes a supervised command owns, from one process table to the next. */
module ProcessOwner {
  import opened Options

  type Pid = nat
  type Birth = string

  /** A process identity: the number alone may be reused. */
  datatype Identity = Identity(pid: Pid, birth: Birth)

  /** One line of the process table. */
  datatype Row = Row(pid: Pid, parent: Pid, group: Pid, birth: Birth, zombie: bool) {
    function Id(): Identity { Identity(pid, birth) }
  }

  type Table = seq<Row>

  // ---------------------------------------------------------------- ownership by parent links

  predicate Listed(rows: Table, id: Identity) { exists row <- rows :: row.Id() == id }

  predicate Live(rows: Table, id: Identity) { exists row <- rows :: row.Id() == id && !row.zombie }

  /** Another process now has the leader's number. */
  predicate LeaderReused(rows: Table, leader: Pid, root: Option<Identity>) {
    root.Some? && exists row <- rows :: row.pid == leader && row.birth != root.value.birth
  }

  /** The command's process group still belongs to it. */
  predicate GroupOwned(rows: Table, leader: Pid, known: set<Identity>, root: Option<Identity>, owned: bool) {
    && !LeaderReused(rows, leader, root)
    && (owned || exists row <- rows :: row.group == leader && (row.Id() in known || root == Some(row.Id())))
  }

  /** Where ownership starts: retained identities, the owned group, and the leader. */
  function Anchors(rows: Table, leader: Pid, known: set<Identity>, root: Option<Identity>, owned: bool): set<Pid> {
    (set row <- rows | row.Id() in known :: row.pid)
    + (set row <- rows | row.group == leader && GroupOwned(rows, leader, known, root, owned) :: row.pid)
    + (if root.Some? && Listed(rows, root.value) then {leader} else {})
  }

  /** A number and one of its children. */
  predicate Child(rows: Table, parent: Pid, pid: Pid) { exists row <- rows :: row.parent == parent && row.pid == pid }

  /** Each process is a child of the one before it. */
  ghost predicate Descends(rows: Table, path: seq<Pid>) {
    forall i :: 0 < i < |path| ==> Child(rows, path[i - 1], path[i])
  }

  /** Parent links lead from an anchor to this process. */
  ghost predicate Reaches(rows: Table, anchors: set<Pid>, pid: Pid) {
    exists path: seq<Pid> :: path != [] && Descends(rows, path) && path[0] in anchors && path[|path| - 1] == pid
  }

  /** The identities that are alive and owned. */
  ghost function Owned(rows: Table, leader: Pid, known: set<Identity>, root: Option<Identity>,
          owned: bool): set<Identity>
  {
    set row <- rows | !row.zombie && Reaches(rows, Anchors(rows, leader, known, root, owned), row.pid) :: row.Id()
  }

  /** The members are exactly the identities that are alive and owned. */
  method Members(rows: Table, leader: Pid, known: set<Identity>, root: Option<Identity>, groupOwned: bool)
    returns (members: set<Identity>)
    ensures members == Owned(rows, leader, known, root, groupOwned)
  {
    var selected := Closure(rows, Anchors(rows, leader, known, root, groupOwned));
    members := set row <- rows | row.pid in selected && !row.zombie :: row.Id();
  }

  /** The loop that adds children until nothing changes finds exactly what parent links reach. */
  method Closure(rows: Table, anchors: set<Pid>) returns (selected: set<Pid>)
    ensures forall pid :: pid in selected <==> Reaches(rows, anchors, pid)
  {
    selected := anchors;
    ghost var all := anchors + set row <- rows :: row.pid;
    forall pid <- selected ensures Reaches(rows, anchors, pid) { AnchorReached(rows, anchors, pid); }
    while true
      invariant anchors <= selected <= all
      invariant forall pid <- selected :: Reaches(rows, anchors, pid)
      decreases |all| - |selected|
    {
      var expanded := selected + set row <- rows | row.parent in selected :: row.pid;
      if expanded == selected { break; }
      Expanded(rows, anchors, selected);
      Smaller(selected, expanded, all);
      selected := expanded;
    }
    Closed(rows, anchors, selected);
  }

  lemma AnchorReached(rows: Table, anchors: set<Pid>, pid: Pid)
    requires pid in anchors
    ensures Reaches(rows, anchors, pid)
  {
    var path := [pid];
    assert Descends(rows, path) && path[0] == pid == path[|path| - 1];
  }

  lemma {:induction false} Expanded(rows: Table, anchors: set<Pid>, selected: set<Pid>)
    requires forall pid <- selected :: Reaches(rows, anchors, pid)
    ensures forall row <- rows :: row.parent in selected ==> Reaches(rows, anchors, row.pid)
  {
    forall row <- rows | row.parent in selected ensures Reaches(rows, anchors, row.pid) {
      ChildReached(rows, anchors, row);
    }
  }

  lemma {:induction false} ChildReached(rows: Table, anchors: set<Pid>, row: Row)
    requires row in rows && Reaches(rows, anchors, row.parent)
    ensures Reaches(rows, anchors, row.pid)
  {
    var path: seq<Pid> :| path != [] && Descends(rows, path) && path[0] in anchors && path[|path| - 1] == row.parent;
    var longer := path + [row.pid];
    assert Descends(rows, longer) && longer[0] == path[0] && longer[|longer| - 1] == row.pid;
  }

  lemma Smaller<T>(a: set<T>, b: set<T>, all: set<T>)
    requires a <= b <= all && a != b
    ensures |a| < |b| <= |all|
  {
    assert b == a + (b - a) && all == b + (all - b);
    assert b - a != {};
  }

  /** A set that holds the anchors and is closed under children holds everything they reach. */
  lemma Closed(rows: Table, anchors: set<Pid>, selected: set<Pid>)
    requires anchors <= selected && forall row <- rows :: row.parent in selected ==> row.pid in selected
    ensures forall pid :: Reaches(rows, anchors, pid) ==> pid in selected
  {
    forall pid | Reaches(rows, anchors, pid) ensures pid in selected {
      var path: seq<Pid> :| path != [] && Descends(rows, path) && path[0] in anchors && path[|path| - 1] == pid;
      PathInside(rows, path, selected, |path| - 1);
    }
  }

  lemma {:induction false} PathInside(rows: Table, path: seq<Pid>, selected: set<Pid>, i: nat)
    requires i < |path| && Descends(rows, path) && path[0] in selected
    requires forall row <- rows :: row.parent in selected ==> row.pid in selected
    ensures path[i] in selected
  {
    if i > 0 {
      PathInside(rows, path, selected, i - 1);
      assert Child(rows, path[i - 1], path[i]);
    }
  }

  // ---------------------------------------------------------------- one observation after another

  /** What the supervisor knows. Once closed, the group stays closed. */
  datatype Knowledge = Knowledge(known: set<Identity>, root: Option<Identity>, groupOpen: bool)

  /** A process table, a failed observation, or the kernel's word that the group is empty. */
  datatype Event = Seen(rows: Table) | NotSeen | GroupGone

  function FirstLeader(rows: Table, leader: Pid): Option<Identity> {
    if rows == [] then None else if rows[0].pid == leader then Some(rows[0].Id()) else FirstLeader(rows[1..], leader)
  }

  ghost function Apply(leader: Pid, k: Knowledge, e: Event): Knowledge {
    match e
    case Seen(rows) =>
      var root := if k.root.None? && k.groupOpen then FirstLeader(rows, leader) else k.root;
      var open := k.groupOpen && !LeaderReused(rows, leader, root);
      Knowledge(Owned(rows, leader, k.known, root, open), root,
                open && exists row <- rows :: row.group == leader && !row.zombie)
    case NotSeen => k
    case GroupGone => k.(groupOpen := false)
  }

  lemma {:induction false} NoLeader(rows: Table, leader: Pid)
    ensures FirstLeader(rows, leader).None? <==> forall row <- rows :: row.pid != leader
    ensures FirstLeader(rows, leader).Some? ==>
              exists i :: 0 <= i < |rows| && rows[i].pid == leader
                          && FirstLeader(rows, leader) == Some(Identity(leader, rows[i].birth))
                          && forall j :: 0 <= j < i ==> rows[j].pid != leader
  {
    if rows != [] {
      NoLeader(rows[1..], leader);
      assert rows == [rows[0]] + rows[1..];
      if rows[0].pid != leader && FirstLeader(rows[1..], leader).Some? {
        var i :| 0 <= i < |rows[1..]| && rows[1..][i].pid == leader
                 && FirstLeader(rows[1..], leader) == Some(Identity(leader, rows[1..][i].birth))
                 && forall j :: 0 <= j < i ==> rows[1..][j].pid != leader;
        forall j | 0 <= j < i + 1 ensures rows[j].pid != leader {
          if j > 0 { assert rows[1..][j - 1] == rows[j]; }
        }
        assert rows[i + 1] == rows[1..][i];
      }
    }
  }

  /**
   The leader is remembered from the first table that lists it, and for good. A table that was seen keeps the group
   open exactly when it was open, a process of the group is alive, and no other process has the leader's number.
   */
  lemma SeenMeans(leader: Pid, k: Knowledge, rows: Table)
    ensures var root := Apply(leader, k, Seen(rows)).root;
            && (k.root.Some? || !k.groupOpen || (forall row <- rows :: row.pid != leader) ==> root == k.root)
            && (k.root.None? && k.groupOpen && (exists row <- rows :: row.pid == leader) ==>
                  exists i :: 0 <= i < |rows| && rows[i].pid == leader && root == Some(Identity(leader, rows[i].birth))
                              && forall j :: 0 <= j < i ==> rows[j].pid != leader)
    ensures var next := Apply(leader, k, Seen(rows));
            next.groupOpen <==>
              && k.groupOpen && (exists row <- rows :: row.group == leader && !row.zombie)
              && (next.root.Some? ==> forall row <- rows :: row.pid == leader ==> row.birth == next.root.value.birth)
  {
    hide Owned;
    NoLeader(rows, leader);
  }

  /** Who is owned after a table: the live processes that parent links reach from where ownership starts. */
  lemma OwnedMeans(rows: Table, leader: Pid, known: set<Identity>, root: Option<Identity>, owned: bool, id: Identity)
    ensures id in Owned(rows, leader, known, root, owned) <==>
              && (exists row <- rows :: row.Id() == id && !row.zombie)
              && exists start :: Reaches(rows, {start}, id.pid) && (
                   // A retained identity that is listed,
                   || (exists row <- rows :: row.pid == start && row.Id() in known)
                   // the leader, while it is listed, even as a zombie,
                   || (start == leader && root.Some? && exists row <- rows :: row.Id() == root.value)
                   // or any process of the group: held open, or still holding an identity that is retained.
                   || ((exists row <- rows :: row.pid == start && row.group == leader)
                       && (forall row <- rows :: row.pid == leader && root.Some? ==> row.birth == root.value.birth)
                       && (owned || exists row <- rows :: row.group == leader
                                                          && (row.Id() in known || root == Some(row.Id())))))
  {
    var anchors := Anchors(rows, leader, known, root, owned);
    if Reaches(rows, anchors, id.pid) {
      var path: seq<Pid> :| path != [] && Descends(rows, path) && path[0] in anchors && path[|path| - 1] == id.pid;
      assert Reaches(rows, {path[0]}, id.pid);
    }
    forall start | Reaches(rows, {start}, id.pid) && start in anchors ensures Reaches(rows, anchors, id.pid) {
      var path: seq<Pid> :| path != [] && Descends(rows, path) && path[0] in {start} && path[|path| - 1] == id.pid;
      assert path[0] in anchors;
    }
  }

  ghost function Run(leader: Pid, k: Knowledge, events: seq<Event>): Knowledge {
    if events == [] then k else Apply(leader, Run(leader, k, events[..|events| - 1]), events[|events| - 1])
  }

  lemma {:induction false} RunAppend(leader: Pid, k: Knowledge, a: seq<Event>, b: seq<Event>)
    ensures Run(leader, k, a + b) == Run(leader, Run(leader, k, a), b)
    decreases |b|
  {
    if b == [] {
      assert a + b == a;
    } else {
      assert (a + b)[..|a + b| - 1] == a + b[..|b| - 1];
      RunAppend(leader, k, a, b[..|b| - 1]);
    }
  }

  /** The group is never taken to be open again. */
  lemma {:induction false} GroupNeverReopens(leader: Pid, k: Knowledge, events: seq<Event>)
    requires !k.groupOpen
    ensures !Run(leader, k, events).groupOpen
  {
    if events != [] { GroupNeverReopens(leader, k, events[..|events| - 1]); }
  }

  /** A known process that a table still shows alive stays known. */
  lemma {:induction false} LiveStaysOwned(rows: Table, leader: Pid, known: set<Identity>, root: Option<Identity>,
          owned: bool, id: Identity)
    requires id in known && Live(rows, id)
    ensures id in Owned(rows, leader, known, root, owned)
  {
    var row :| row in rows && row.Id() == id && !row.zombie;
    AnchorReached(rows, Anchors(rows, leader, known, root, owned), row.pid);
  }

  /** It is shown dead by this event. */
  predicate ShowsGone(e: Event, id: Identity) { e.Seen? && !Live(e.rows, id) }

  /** Nothing but a table that shows it gone ever drops a known process. */
  lemma {:induction false} KnownUntilGone(leader: Pid, k: Knowledge, events: seq<Event>, id: Identity)
    requires id in k.known && forall e <- events :: !ShowsGone(e, id)
    ensures id in Run(leader, k, events).known
  {
    if events != [] {
      var last := |events| - 1;
      KnownUntilGone(leader, k, events[..last], id);
      var before := Run(leader, k, events[..last]);
      assert events[last] in events && !ShowsGone(events[last], id);
      if events[last].Seen? {
        var rows := events[last].rows;
        var root := if before.root.None? && before.groupOpen then FirstLeader(rows, leader) else before.root;
        LiveStaysOwned(rows, leader, before.known, root, before.groupOpen && !LeaderReused(rows, leader, root), id);
      }
    }
  }

  /** When nothing is left, every process known at any time was later seen to be gone. */
  lemma NothingLeftBehind(leader: Pid, k: Knowledge, before: seq<Event>, after: seq<Event>, id: Identity)
    requires id in Run(leader, k, before).known && Run(leader, k, before + after).known == {}
    ensures exists e <- after :: ShowsGone(e, id)
  {
    RunAppend(leader, k, before, after);
    if forall e <- after :: !ShowsGone(e, id) {
      KnownUntilGone(leader, Run(leader, k, before), after, id);
    }
  }

  /** Known identities that the table does not list have no influence, even if their number is in use again. */
  lemma {:induction false} ForgottenHasNoInfluence(rows: Table, leader: Pid, known: set<Identity>,
          root: Option<Identity>, owned: bool, id: Identity)
    requires !Listed(rows, id)
    ensures Owned(rows, leader, known + {id}, root, owned) == Owned(rows, leader, known, root, owned)
  {
    assert forall row <- rows :: row.Id() in known + {id} <==> row.Id() in known;
    assert Anchors(rows, leader, known + {id}, root, owned) == Anchors(rows, leader, known, root, owned);
  }
}
