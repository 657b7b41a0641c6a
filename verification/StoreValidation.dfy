/** The aggregate rules on a resume document, and the canonical order of their issues. */
module StoreValidation {
  import opened Distinctness
  import opened Options
  import opened Ordering
  import opened Revisions
  import opened Sequences

  const MAX_RICH_TEXT_BYTES := 16384
  const MAX_OTHER_PATHS := 3

  // ---------------------------------------------------------------- documents

  datatype YearMonth = YearMonth(year: int, month: Option<int>)
  datatype DateRange = DateRange(start: Option<YearMonth>, end: Option<YearMonth>)

  /** An entry as far as the rules read it: its text fields, where they are strings. */
  datatype Entry = Entry(
    id: Option<string>, text: Option<string>, description: Option<string>, infoHtml: Option<string>,
    dates: Option<DateRange>)
  datatype Section = Section(sectionType: Option<string>, entries: seq<Entry>)
  datatype Detail = Detail(id: Option<string>, kind: Option<string>, value: Option<string>)

  /** Sections under their keys, in the order in which an object lists its keys. */
  type Content = seq<(string, Section)>

  datatype Document = Document(content: Content, main: seq<string>, sidebar: seq<string>,
                               details: seq<Option<Detail>>, photoKey: Option<string>)

  function Keys(content: Content): seq<string> { Map(content, KeyOf()) }

  function KeyOf(): ((string, Section)) -> string { (s: (string, Section)) => s.0 }

  /** An object has each key once. */
  ghost predicate IsObject(content: Content) { NoRepeats(Keys(content)) }

  /** The same keys with the same sections, in whatever order. */
  ghost predicate SameMap(a: Content, b: Content) { forall s :: s in a <==> s in b }

  // ---------------------------------------------------------------- issues

  datatype Rule =
    | RichTextByteLength | LayoutExactlyOnce | LayoutMissingContentKey | LayoutOrphanContentKey
    | DateRangeOrder | DuplicateEntryId | DuplicateDetailId | PersonalDetailUrlScheme | PhotoKeyPathTraversal

  /** What a message says. At most three peers of a duplicate are named, and the rest counted. */
  datatype Message =
    | TooLong(path: string, bytes: nat, limit: nat)
    | PlacedTimes(key: string, times: nat)
    | NotInContent(key: string)
    | NotPlaced(key: string)
    | StartsAfterEnd(path: string, start: YearMonth, end: YearMonth)
    | AlsoUsedAt(path: string, id: string, shown: seq<string>, remaining: nat)
    | NotHttps(path: string, kind: Option<string>)
    | ContainsDots(key: string)

  datatype Issue = Issue(rule: string, path: string, message: string)

  /** Rule names and messages as text, and the UTF-8 length of a string. */
  datatype Library = Library(name: Rule -> string, render: Message -> string, utf8Length: string -> nat) {
    function Report(rule: Rule, path: string, message: Message): Issue { Issue(name(rule), path, render(message)) }
  }

  // ---------------------------------------------------------------- rules over entries

  function Indexed<T>(s: seq<T>): seq<(nat, T)> { seq(|s|, i requires 0 <= i < |s| => (i, s[i])) }

  function EntryPath(key: string, index: nat, field: string): string {
    "content." + key + ".entries[" + Decimal(index) + "]." + field
  }

  function TextLength(lib: Library, value: Option<string>, path: string): seq<Issue> {
    if value.Some? && lib.utf8Length(value.value) > MAX_RICH_TEXT_BYTES
    then [lib.Report(RichTextByteLength, path, TooLong(path, lib.utf8Length(value.value), MAX_RICH_TEXT_BYTES))]
    else []
  }

  /** The one rich-text field of each section type. */
  function EntryLength(lib: Library, key: string, sectionType: Option<string>): ((nat, Entry)) -> seq<Issue> {
    (e: (nat, Entry)) =>
      match sectionType
      case None => []
      case Some(kind) =>
        if kind == "profile" then TextLength(lib, e.1.text, EntryPath(key, e.0, "text"))
        else if kind == "skill" then TextLength(lib, e.1.infoHtml, EntryPath(key, e.0, "infoHtml"))
        else if kind == "work" || kind == "education" || kind == "certificate" || kind == "project" || kind == "custom"
        then TextLength(lib, e.1.description, EntryPath(key, e.0, "description"))
        else []
  }

  function SectionLengths(lib: Library): ((string, Section)) -> seq<Issue> {
    (s: (string, Section)) => FlatMap(Indexed(s.1.entries), EntryLength(lib, s.0, s.1.sectionType))
  }

  /** A missing month counts as January. */
  function Ordinal(d: YearMonth): int { d.year * 12 + if d.month.Some? then d.month.value else 1 }

  function DateOrder(lib: Library, key: string): ((nat, Entry)) -> seq<Issue> {
    (e: (nat, Entry)) =>
      var path := EntryPath(key, e.0, "dates");
      match e.1.dates
      case Some(DateRange(Some(start), Some(end))) =>
        if Ordinal(start) <= Ordinal(end) then []
        else [lib.Report(DateRangeOrder, path, StartsAfterEnd(path, start, end))]
      case _ => []
  }

  function SectionDates(lib: Library): ((string, Section)) -> seq<Issue> {
    (s: (string, Section)) =>
      match s.1.sectionType
      case None => []
      case Some(kind) =>
        if kind == "work" || kind == "education" || kind == "project" || kind == "custom"
        then FlatMap(Indexed(s.1.entries), DateOrder(lib, s.0)) else []
  }

  // ---------------------------------------------------------------- layout

  function LayoutPath(): string { "customization.layout.sections" }

  function KeySet(keys: seq<string>): (present: set<string>)
    ensures forall key :: key in present <==> key in keys
  {
    set key | key in keys
  }

  /** The issues of one placed key, from how often it is placed and whether it is in the content. */
  function PlacedIssues(lib: Library, key: string, times: nat, inContent: bool): seq<Issue> {
    (if times > 1 then [lib.Report(LayoutExactlyOnce, LayoutPath(), PlacedTimes(key, times))] else [])
    + (if !inContent then [lib.Report(LayoutMissingContentKey, LayoutPath(), NotInContent(key))] else [])
  }

  function OrphanIssues(lib: Library, key: string, placed: bool): seq<Issue> {
    if placed then [] else [lib.Report(LayoutOrphanContentKey, LayoutPath(), NotPlaced(key))]
  }

  function Placed(lib: Library, keys: set<string>, placements: seq<string>): string -> seq<Issue> {
    (key: string) => PlacedIssues(lib, key, multiset(placements)[key], key in keys)
  }

  function Orphan(lib: Library, placements: seq<string>): string -> seq<Issue> {
    (key: string) => OrphanIssues(lib, key, key in placements)
  }

  function LayoutIssues(lib: Library, keys: seq<string>, placements: seq<string>): seq<Issue> {
    FlatMap(Distinct(placements), Placed(lib, KeySet(keys), placements)) + FlatMap(keys, Orphan(lib, placements))
  }

  /** A map of counts that keeps insertion order. */
  method CountPlacements(placements: seq<string>) returns (counts: map<string, nat>, order: seq<string>)
    ensures order == Distinct(placements)
    ensures forall key :: key in counts <==> key in placements
    ensures forall key <- counts :: counts[key] == multiset(placements)[key]
  {
    counts, order := map[], [];
    for i := 0 to |placements|
      invariant order == Distinct(placements[..i]) && forall key :: key in counts <==> key in placements[..i]
      invariant forall key <- counts :: counts[key] == multiset(placements[..i])[key]
    {
      assert placements[..i + 1] == placements[..i] + [placements[i]];
      assert placements[..i + 1][..i] == placements[..i];
      var key := placements[i];
      if key !in counts { order := order + [key]; }
      counts := counts[key := (if key in counts then counts[key] else 0) + 1];
    }
    assert placements[..|placements|] == placements;
  }

  /** The rule as it runs: one pass over the counts and one over the content keys. */
  method ValidateLayoutSections(lib: Library, keys: seq<string>, main: seq<string>, sidebar: seq<string>)
    returns (issues: seq<Issue>)
    ensures issues == LayoutIssues(lib, keys, main + sidebar)
  {
    var counts, order := CountPlacements(main + sidebar);
    var placed := ReportPlaced(lib, KeySet(keys), main + sidebar, counts, order);
    var orphans := ReportOrphans(lib, keys, main + sidebar, counts);
    issues := placed + orphans;
  }

  method ReportPlaced(lib: Library, keys: set<string>, placements: seq<string>, counts: map<string, nat>,
          order: seq<string>)
    returns (issues: seq<Issue>)
    requires forall key <- order :: key in counts && counts[key] == multiset(placements)[key]
    ensures issues == FlatMap(order, Placed(lib, keys, placements))
  {
    issues := [];
    for i := 0 to |order|
      invariant issues == FlatMap(order[..i], Placed(lib, keys, placements))
    {
      assert order[..i + 1][..i] == order[..i];
      assert counts[order[i]] == multiset(placements)[order[i]];
      issues := issues + PlacedIssues(lib, order[i], counts[order[i]], order[i] in keys);
    }
    assert order[..|order|] == order;
  }

  method ReportOrphans(lib: Library, keys: seq<string>, placements: seq<string>, counts: map<string, nat>)
    returns (issues: seq<Issue>)
    requires forall key :: key in counts <==> key in placements
    ensures issues == FlatMap(keys, Orphan(lib, placements))
  {
    issues := [];
    for i := 0 to |keys|
      invariant issues == FlatMap(keys[..i], Orphan(lib, placements))
    {
      assert keys[..i + 1][..i] == keys[..i];
      issues := issues + OrphanIssues(lib, keys[i], keys[i] in counts);
    }
    assert keys[..|keys|] == keys;
  }

  lemma NoPlacedIssues(lib: Library, key: string, times: nat, inContent: bool)
    ensures PlacedIssues(lib, key, times, inContent) == [] <==> times <= 1 && inContent
    ensures OrphanIssues(lib, key, inContent) == [] <==> inContent
  {
  }

  lemma {:induction false} CountInDistinct(keys: seq<string>, key: string)
    requires NoRepeats(keys)
    ensures multiset(keys)[key] == if key in keys then 1 else 0
  {
    CountElements(keys);
    assert key in keys <==> key in Elements(keys);
  }

  /** There are no layout issues exactly when main and sidebar together list every content key once. */
  lemma LayoutExact(lib: Library, keys: seq<string>, placements: seq<string>)
    requires NoRepeats(keys)
    ensures LayoutIssues(lib, keys, placements) == [] <==> multiset(placements) == multiset(keys)
  {
    NoneFromAny(Distinct(placements), Placed(lib, KeySet(keys), placements));
    NoneFromAny(keys, Orphan(lib, placements));
    forall key
      ensures Placed(lib, KeySet(keys), placements)(key) == [] <==> multiset(placements)[key] <= 1 && key in keys
    {
      NoPlacedIssues(lib, key, multiset(placements)[key], key in keys);
    }
    forall key ensures Orphan(lib, placements)(key) == [] <==> key in placements {
      NoPlacedIssues(lib, key, 0, key in placements);
    }
    SameCounts(keys, placements);
  }

  lemma SameCounts(keys: seq<string>, placements: seq<string>)
    requires NoRepeats(keys)
    ensures multiset(placements) == multiset(keys)
            <==> (forall key <- Distinct(placements) :: multiset(placements)[key] <= 1 && key in keys)
                 && (forall key <- keys :: key in placements)
  {
    forall key
      ensures multiset(keys)[key] == (if key in keys then 1 else 0)
      ensures key in placements <==> multiset(placements)[key] > 0
    {
      CountInDistinct(keys, key);
    }
    if && (forall key <- Distinct(placements) :: multiset(placements)[key] <= 1 && key in keys)
       && (forall key <- keys :: key in placements) {
      forall key ensures multiset(placements)[key] == multiset(keys)[key] {
        assert key in placements ==> key in Distinct(placements);
      }
    }
  }

  lemma {:induction false} NoneFromAny<T(!new), U>(s: seq<T>, f: T -> seq<U>)
    ensures FlatMap(s, f) == [] <==> forall x <- s :: f(x) == []
  {
    if s != [] {
      NoneFromAny(s[..|s| - 1], f);
      assert s == s[..|s| - 1] + [s[|s| - 1]];
    }
  }

  // ---------------------------------------------------------------- unique identifiers

  /** An identifier where it occurs. A missing one is the empty string. */
  datatype Occurrence = Occurrence(id: string, path: string)

  function IdOf(): Occurrence -> string { (o: Occurrence) => o.id }

  function IdText(id: Option<string>): string { if id.Some? then id.value else "" }

  function EntryOccurrence(key: string): ((nat, Entry)) -> seq<Occurrence> {
    (e: (nat, Entry)) => [Occurrence(IdText(e.1.id), EntryPath(key, e.0, "id"))]
  }

  function SectionOccurrences(): ((string, Section)) -> seq<Occurrence> {
    (s: (string, Section)) => FlatMap(Indexed(s.1.entries), EntryOccurrence(s.0))
  }

  function EntryOccurrences(content: Content): seq<Occurrence> { FlatMap(content, SectionOccurrences()) }

  function DetailOccurrence(): ((nat, Option<Detail>)) -> seq<Occurrence> {
    (d: (nat, Option<Detail>)) =>
      [Occurrence(if d.1.Some? then IdText(d.1.value.id) else "", "personalDetails.details[" + Decimal(d.0) + "].id")]
  }

  function DetailOccurrences(details: seq<Option<Detail>>): seq<Occurrence> {
    FlatMap(Indexed(details), DetailOccurrence())
  }

  /** The paths of one identifier, in the order of its occurrences. */
  function PathsOf(id: string): Occurrence -> seq<string> { (o: Occurrence) => if o.id == id then [o.path] else [] }

  /** The peers that a message names, and how many more there are. */
  function Shown(sorted: seq<string>, path: string): (shown: seq<string>)
    ensures |shown| <= MAX_OTHER_PATHS
  {
    var peers := Filter(sorted, NotPath(path));
    if |peers| <= MAX_OTHER_PATHS then peers else peers[..MAX_OTHER_PATHS]
  }

  function NotPath(path: string): string -> bool { (p: string) => p != path }

  function Remaining(sorted: seq<string>, path: string): nat {
    var remaining := |sorted| - 1 - |Shown(sorted, path)|;
    if remaining > 0 then remaining else 0
  }

  /** Collects peers until three are shown, then counts the rest. */
  method FormatOtherPaths(sorted: seq<string>, path: string) returns (shown: seq<string>, remaining: nat)
    ensures shown == Shown(sorted, path) && remaining == Remaining(sorted, path)
  {
    shown := [];
    ghost var peers := Filter(sorted, NotPath(path));
    var i := 0;
    while i < |sorted|
      invariant i <= |sorted| && |shown| <= MAX_OTHER_PATHS && shown == Filter(sorted[..i], NotPath(path))
    {
      assert sorted[..i + 1][..i] == sorted[..i];
      if sorted[i] != path {
        if |shown| == MAX_OTHER_PATHS { break; }
        shown := shown + [sorted[i]];
      }
      i := i + 1;
    }
    FilterPrefix(sorted, NotPath(path), i);
    var total := |sorted| - 1;
    remaining := if total - |shown| > 0 then total - |shown| else 0;
    if i == |sorted| { assert sorted[..i] == sorted; } else { FilterGrows(sorted, NotPath(path), i); }
  }

  lemma {:induction false} FilterPrefix<T(!new)>(s: seq<T>, keep: T -> bool, n: nat)
    requires n <= |s|
    ensures Filter(s[..n], keep) <= Filter(s, keep)
  {
    if n < |s| {
      FilterPrefix(s[..|s| - 1], keep, n);
      assert s[..|s| - 1][..n] == s[..n];
    } else {
      assert s[..n] == s;
    }
  }

  lemma FilterGrows<T(!new)>(s: seq<T>, keep: T -> bool, n: nat)
    requires n < |s| && keep(s[n])
    ensures |Filter(s, keep)| > |Filter(s[..n], keep)|
  {
    FilterPrefix(s, keep, n + 1);
    assert s[..n + 1][..n] == s[..n];
  }

  /** The issues of one identifier: one for each of its sorted paths, when it occurs more than once. */
  function IdIssues(lib: Library, rule: Rule, id: string, sorted: seq<string>): seq<Issue> {
    if |sorted| <= 1 then [] else Map(sorted, IdIssue(lib, rule, id, sorted))
  }

  function IdIssue(lib: Library, rule: Rule, id: string, sorted: seq<string>): string -> Issue {
    (path: string) => PeerIssue(lib, rule, id, path, Shown(sorted, path), Remaining(sorted, path))
  }

  function PeerIssue(lib: Library, rule: Rule, id: string, path: string, shown: seq<string>, remaining: nat): Issue {
    lib.Report(rule, path, AlsoUsedAt(path, id, shown, remaining))
  }

  function SortedPaths(occurrences: seq<Occurrence>, id: string): seq<string> {
    Sort(FlatMap(occurrences, PathsOf(id)), StringLeq)
  }

  function IssuesOfId(lib: Library, rule: Rule, occurrences: seq<Occurrence>): string -> seq<Issue> {
    (id: string) => IdIssues(lib, rule, id, SortedPaths(occurrences, id))
  }

  /** Identifiers and paths are sorted, so the order of the occurrences does not show. */
  function DuplicateIssues(lib: Library, rule: Rule, occurrences: seq<Occurrence>): seq<Issue> {
    FlatMap(Sort(Distinct(Map(occurrences, IdOf())), StringLeq), IssuesOfId(lib, rule, occurrences))
  }

  /** The rule as it runs: paths collected under each identifier, then identifiers and paths sorted. */
  method ValidateUniqueness(lib: Library, rule: Rule, occurrences: seq<Occurrence>) returns (issues: seq<Issue>)
    ensures issues == DuplicateIssues(lib, rule, occurrences)
  {
    var pathsById, ids := CollectPaths(occurrences);
    SortMembers(ids);
    issues := ReportIds(lib, rule, occurrences, pathsById, Sort(ids, StringLeq));
  }

  lemma SortMembers(ids: seq<string>)
    ensures forall id :: id in Sort(ids, StringLeq) <==> id in ids
  {
    forall id ensures id in Sort(ids, StringLeq) <==> id in ids {
      assert id in multiset(Sort(ids, StringLeq)) <==> id in multiset(ids);
    }
  }

  method ReportIds(lib: Library, rule: Rule, occurrences: seq<Occurrence>, pathsById: map<string, seq<string>>,
          ids: seq<string>)
    returns (issues: seq<Issue>)
    requires forall id <- ids :: id in pathsById && pathsById[id] == FlatMap(occurrences, PathsOf(id))
    ensures issues == FlatMap(ids, IssuesOfId(lib, rule, occurrences))
  {
    issues := [];
    for i := 0 to |ids|
      invariant issues == FlatMap(ids[..i], IssuesOfId(lib, rule, occurrences))
    {
      FlatMapStep(ids, IssuesOfId(lib, rule, occurrences), i);
      var more := ReportId(lib, rule, ids[i], pathsById[ids[i]]);
      issues := issues + more;
    }
    Whole(ids);
  }

  /** The map after some occurrences: for each identifier its paths, and nothing for the others. */
  ghost predicate Collects(pathsById: map<string, seq<string>>, occurrences: seq<Occurrence>) {
    forall id :: FlatMap(occurrences, PathsOf(id)) == Collected(pathsById, id)
  }

  function Collected(pathsById: map<string, seq<string>>, id: string): seq<string> {
    if id in pathsById then pathsById[id] else []
  }

  method CollectPaths(occurrences: seq<Occurrence>) returns (pathsById: map<string, seq<string>>, ids: seq<string>)
    ensures ids == Distinct(Map(occurrences, IdOf()))
    ensures forall id <- ids :: id in pathsById && pathsById[id] == FlatMap(occurrences, PathsOf(id))
  {
    hide Collects, Distinct, Map, FlatMap;
    pathsById, ids := map[], [];
    NothingCollected(occurrences);
    for i := 0 to |occurrences|
      invariant ids == Distinct(Map(occurrences[..i], IdOf())) && forall id :: id in pathsById <==> id in ids
      invariant Collects(pathsById, occurrences[..i])
    {
      var o := occurrences[i];
      NextOccurrence(pathsById, occurrences, i);
      if o.id !in pathsById { ids := ids + [o.id]; }
      pathsById := pathsById[o.id := Collected(pathsById, o.id) + [o.path]];
    }
    Whole(occurrences);
    AllCollected(pathsById, ids, occurrences);
  }

  lemma NothingCollected(occurrences: seq<Occurrence>)
    ensures Collects(map[], occurrences[..0]) && Distinct(Map(occurrences[..0], IdOf())) == []
  {
  }

  lemma AllCollected(pathsById: map<string, seq<string>>, ids: seq<string>, occurrences: seq<Occurrence>)
    requires Collects(pathsById, occurrences) && forall id :: id in pathsById <==> id in ids
    ensures forall id <- ids :: id in pathsById && pathsById[id] == FlatMap(occurrences, PathsOf(id))
  {
  }

  lemma NextOccurrence(pathsById: map<string, seq<string>>, occurrences: seq<Occurrence>, i: nat)
    requires i < |occurrences| && Collects(pathsById, occurrences[..i])
    ensures var o := occurrences[i];
            && Collects(pathsById[o.id := Collected(pathsById, o.id) + [o.path]], occurrences[..i + 1])
            && var ids := Distinct(Map(occurrences[..i], IdOf()));
               Distinct(Map(occurrences[..i + 1], IdOf())) == if o.id in ids then ids else ids + [o.id]
  {
    var o := occurrences[i];
    var after := pathsById[o.id := Collected(pathsById, o.id) + [o.path]];
    forall id ensures FlatMap(occurrences[..i + 1], PathsOf(id)) == Collected(after, id) {
      FlatMapStep(occurrences, PathsOf(id), i);
    }
    MapStep(occurrences, IdOf(), i);
    DistinctStep(Map(occurrences[..i], IdOf()), o.id);
  }

  method ReportId(lib: Library, rule: Rule, id: string, paths: seq<string>) returns (issues: seq<Issue>)
    ensures issues == IdIssues(lib, rule, id, Sort(paths, StringLeq))
  {
    var sorted := Sort(paths, StringLeq);
    SameLength(sorted, paths);
    if |paths| <= 1 { return []; }
    issues := ReportPaths(lib, rule, id, sorted);
  }

  method ReportPaths(lib: Library, rule: Rule, id: string, sorted: seq<string>) returns (issues: seq<Issue>)
    ensures issues == Map(sorted, IdIssue(lib, rule, id, sorted))
  {
    issues := [];
    for i := 0 to |sorted|
      invariant issues == Map(sorted[..i], IdIssue(lib, rule, id, sorted))
    {
      MapStep(sorted, IdIssue(lib, rule, id, sorted), i);
      var issue := ReportPath(lib, rule, id, sorted, sorted[i]);
      issues := issues + [issue];
    }
    Whole(sorted);
  }

  method ReportPath(lib: Library, rule: Rule, id: string, sorted: seq<string>, path: string) returns (issue: Issue)
    ensures issue == IdIssue(lib, rule, id, sorted)(path)
  {
    var shown, remaining := FormatOtherPaths(sorted, path);
    issue := PeerIssue(lib, rule, id, path, shown, remaining);
  }

  lemma SameLength<T>(a: seq<T>, b: seq<T>)
    requires multiset(a) == multiset(b)
    ensures |a| == |b|
  {
    assert |multiset(a)| == |a| && |multiset(b)| == |b|;
  }

  // ---------------------------------------------------------------- the identifier rule is exact

  /** No two occurrences have the same path. */
  ghost predicate DistinctPaths(occurrences: seq<Occurrence>) {
    forall i, j :: 0 <= i < j < |occurrences| ==> occurrences[i].path != occurrences[j].path
  }

  function Paths(occurrences: seq<Occurrence>, id: string): seq<string> { FlatMap(occurrences, PathsOf(id)) }

  ghost predicate Repeated(occurrences: seq<Occurrence>, id: string) { |Paths(occurrences, id)| > 1 }

  lemma PathMembers(occurrences: seq<Occurrence>, id: string)
    ensures forall path :: path in Paths(occurrences, id) <==> Occurrence(id, path) in occurrences
  {
    forall path ensures path in Paths(occurrences, id) <==> Occurrence(id, path) in occurrences {
      FlatMapMembers(occurrences, PathsOf(id), path);
    }
  }

  lemma {:induction false} PathsDistinct(occurrences: seq<Occurrence>, id: string)
    requires DistinctPaths(occurrences)
    ensures NoRepeats(Paths(occurrences, id))
  {
    if occurrences != [] {
      var n := |occurrences| - 1;
      PathsDistinct(occurrences[..n], id);
      PathMembers(occurrences[..n], id);
      forall path <- Paths(occurrences[..n], id) ensures path != occurrences[n].path {
        var i :| 0 <= i < n && occurrences[i] == Occurrence(id, path);
      }
    }
  }

  lemma {:induction false} CountIds(occurrences: seq<Occurrence>, id: string)
    ensures |Paths(occurrences, id)| == multiset(Map(occurrences, IdOf()))[id]
  {
    if occurrences != [] { CountIds(occurrences[..|occurrences| - 1], id); }
  }

  /** There are no issues exactly when all identifiers differ. */
  lemma {:induction false} NoDuplicatesExact(lib: Library, rule: Rule, occurrences: seq<Occurrence>)
    ensures DuplicateIssues(lib, rule, occurrences) == [] <==> NoRepeats(Map(occurrences, IdOf()))
  {
    hide Sort, Distinct, Map, FlatMap, IssuesOfId;
    var ids := Map(occurrences, IdOf());
    var sorted := Sort(Distinct(ids), StringLeq);
    NoneFromAny(sorted, IssuesOfId(lib, rule, occurrences));
    forall id ensures IssuesOfId(lib, rule, occurrences)(id) == [] <==> multiset(ids)[id] <= 1 {
      NoIssuesOfId(lib, rule, occurrences, id);
    }
    forall id ensures id in sorted <==> id in ids { SortedDistinct(ids, id); }
    CountsDecide(ids);
  }

  /** One identifier has no issues exactly when it is counted at most once. */
  lemma {:induction false} NoIssuesOfId(lib: Library, rule: Rule, occurrences: seq<Occurrence>, id: string)
    ensures IssuesOfId(lib, rule, occurrences)(id) == [] <==> multiset(Map(occurrences, IdOf()))[id] <= 1
  {
    CountIds(occurrences, id);
    SameLength(SortedPaths(occurrences, id), Paths(occurrences, id));
  }

  lemma {:induction false} SortedDistinct(ids: seq<string>, id: string)
    ensures id in Sort(Distinct(ids), StringLeq) <==> id in ids
  {
    SortMembers(Distinct(ids));
  }

  /** Nothing repeats exactly when every element is counted at most once. */
  lemma CountsDecide<T>(s: seq<T>)
    ensures NoRepeats(s) <==> forall x <- s :: multiset(s)[x] <= 1
  {
    if NoRepeats(s) {
      CountElements(s);
    } else {
      var i, j :| 0 <= i < j < |s| && s[i] == s[j];
      CountedTwice(s, i, j);
    }
  }

  lemma CountedTwice<T>(s: seq<T>, i: nat, j: nat)
    requires i < j < |s| && s[i] == s[j]
    ensures multiset(s)[s[i]] >= 2
  {
    assert s == s[..i + 1] + s[i + 1..];
    assert s[i] in s[..i + 1] by { assert s[..i + 1][i] == s[i]; }
    assert s[i] in s[i + 1..] by { assert s[i + 1..][j - i - 1] == s[j]; }
  }

  lemma PermutationNoRepeats<T>(a: seq<T>, b: seq<T>)
    requires NoRepeats(a) && multiset(a) == multiset(b)
    ensures NoRepeats(b)
  {
    CountsDecide(a);
    CountsDecide(b);
    forall x <- b ensures multiset(b)[x] <= 1 {
      assert x in multiset(a);
    }
  }

  /** Leaving out one of several different elements leaves one less. */
  lemma {:induction false} FilterOut(s: seq<string>, path: string)
    requires NoRepeats(s)
    ensures |Filter(s, NotPath(path))| == |s| - if path in s then 1 else 0
    ensures NoRepeats(Filter(s, NotPath(path)))
  {
    if s != [] {
      var n := |s| - 1;
      assert s == s[..n] + [s[n]];
      FilterOut(s[..n], path);
    }
  }

  /** What the message of an occurrence names: other places of the same identifier, and how many more there are. */
  ghost predicate NamesPeers(occurrences: seq<Occurrence>, o: Occurrence, shown: seq<string>, remaining: nat) {
    && |shown| <= 3 && NoRepeats(shown)
    && (forall path <- shown :: path != o.path && Occurrence(o.id, path) in occurrences)
    && |shown| + remaining == |Paths(occurrences, o.id)| - 1
    && (remaining > 0 ==> |shown| == 3)
  }

  lemma PeersExact(occurrences: seq<Occurrence>, o: Occurrence)
    requires DistinctPaths(occurrences) && o in occurrences
    ensures var sorted := SortedPaths(occurrences, o.id);
            NamesPeers(occurrences, o, Shown(sorted, o.path), Remaining(sorted, o.path))
  {
    var paths, sorted := Paths(occurrences, o.id), SortedPaths(occurrences, o.id);
    PathMembers(occurrences, o.id);
    PathsDistinct(occurrences, o.id);
    PermutationNoRepeats(paths, sorted);
    SameLength(sorted, paths);
    SortMembers(paths);
    FilterOut(sorted, o.path);
    assert o == Occurrence(o.id, o.path);
  }

  /** The peers that are named come first in the order of their paths, and are named in that order. */
  lemma FirstPeersShown(occurrences: seq<Occurrence>, o: Occurrence, other: string)
    ensures var shown := Shown(SortedPaths(occurrences, o.id), o.path);
            && Sorted(shown, StringLeq)
            && (Occurrence(o.id, other) in occurrences && other != o.path && other !in shown ==>
                  forall path <- shown :: StringLeq(path, other))
  {
    var sorted := SortedPaths(occurrences, o.id);
    var peers, shown := Filter(sorted, NotPath(o.path)), Shown(sorted, o.path);
    StringOrder();
    SortSorted(Paths(occurrences, o.id), StringLeq);
    FilterSorted(sorted, NotPath(o.path), StringLeq);
    PathMembers(occurrences, o.id);
    SortMembers(Paths(occurrences, o.id));
    if Occurrence(o.id, other) in occurrences && other != o.path && other !in shown {
      assert peers == shown + peers[|shown|..];
      var k :| 0 <= k < |peers| - |shown| && peers[|shown|..][k] == other;
      assert peers[|shown| + k] == other;
    }
  }

  lemma {:induction false} FilterSorted<T(!new)>(s: seq<T>, keep: T -> bool, leq: (T, T) -> bool)
    requires Sorted(s, leq)
    ensures Sorted(Filter(s, keep), leq)
  {
    if s != [] {
      var n := |s| - 1;
      FilterSorted(s[..n], keep, leq);
      var kept := Filter(s[..n], keep);
      forall x | x in kept ensures leq(x, s[n]) {
        var i :| 0 <= i < n && s[..n][i] == x;
        assert s[i] == x;
      }
    }
  }

  /** Every issue is that of one repeated occurrence, and names its peers. */
  lemma EveryIssueIsADuplicate(lib: Library, rule: Rule, occurrences: seq<Occurrence>)
    requires DistinctPaths(occurrences)
    ensures forall issue <- DuplicateIssues(lib, rule, occurrences) :: IsPeerIssue(lib, rule, occurrences, issue)
  {
    var ids := Sort(Distinct(Map(occurrences, IdOf())), StringLeq);
    forall issue <- DuplicateIssues(lib, rule, occurrences) ensures IsPeerIssue(lib, rule, occurrences, issue) {
      FlatMapMembers(ids, IssuesOfId(lib, rule, occurrences), issue);
      var id :| id in ids && issue in IssuesOfId(lib, rule, occurrences)(id);
      IssueOfId(lib, rule, occurrences, id, issue);
      var o := Occurrence(id, issue.path);
      PeersExact(occurrences, o);
      var sorted := SortedPaths(occurrences, id);
      assert NamesPeers(occurrences, o, Shown(sorted, o.path), Remaining(sorted, o.path));
    }
  }

  /** The issue of a repeated occurrence, with its peers. */
  ghost predicate IsPeerIssue(lib: Library, rule: Rule, occurrences: seq<Occurrence>, issue: Issue) {
    exists o, shown, remaining ::
      && o in occurrences && Repeated(occurrences, o.id) && NamesPeers(occurrences, o, shown, remaining)
      && issue == PeerIssue(lib, rule, o.id, o.path, shown, remaining)
  }

  lemma SortedPathsMembers(occurrences: seq<Occurrence>, id: string)
    ensures forall path :: path in SortedPaths(occurrences, id) <==> Occurrence(id, path) in occurrences
    ensures |SortedPaths(occurrences, id)| == |Paths(occurrences, id)|
  {
    SameLength(SortedPaths(occurrences, id), Paths(occurrences, id));
    SortMembers(Paths(occurrences, id));
    PathMembers(occurrences, id);
  }

  /** The issues of a sorted list of paths: one for each, with that path. */
  lemma IdIssuesMembers(lib: Library, rule: Rule, id: string, sorted: seq<string>, issue: Issue)
    ensures issue in IdIssues(lib, rule, id, sorted)
            <==> |sorted| > 1 && issue.path in sorted && issue == IdIssue(lib, rule, id, sorted)(issue.path)
  {
    var f := IdIssue(lib, rule, id, sorted);
    assert forall path :: f(path).path == path;
    MapMembers(sorted, f, issue);
  }

  lemma IssueOfId(lib: Library, rule: Rule, occurrences: seq<Occurrence>, id: string, issue: Issue)
    ensures issue in IdIssues(lib, rule, id, SortedPaths(occurrences, id)) ==>
              && Occurrence(id, issue.path) in occurrences && Repeated(occurrences, id)
              && issue == IdIssue(lib, rule, id, SortedPaths(occurrences, id))(issue.path)
  {
    SortedPathsMembers(occurrences, id);
    IdIssuesMembers(lib, rule, id, SortedPaths(occurrences, id), issue);
  }

  /** Every repeated occurrence has an issue. */
  lemma EveryDuplicateIsReported(lib: Library, rule: Rule, occurrences: seq<Occurrence>, o: Occurrence)
    requires o in occurrences && Repeated(occurrences, o.id)
    ensures exists issue <- DuplicateIssues(lib, rule, occurrences) :: issue.path == o.path
  {
    var sorted, ids := SortedPaths(occurrences, o.id), Distinct(Map(occurrences, IdOf()));
    SortedPathsMembers(occurrences, o.id);
    assert o == Occurrence(o.id, o.path);
    var issue := PeerIssue(lib, rule, o.id, o.path, Shown(sorted, o.path), Remaining(sorted, o.path));
    IdIssuesMembers(lib, rule, o.id, sorted, issue);
    MapMembers(occurrences, IdOf(), o.id);
    SortMembers(ids);
    FlatMapMembers(Sort(ids, StringLeq), IssuesOfId(lib, rule, occurrences), issue);
  }

  ghost predicate DistinctIssuePaths(issues: seq<Issue>) {
    forall i, j :: 0 <= i < j < |issues| ==> issues[i].path != issues[j].path
  }

  /** And only one. */
  lemma OneIssuePerDuplicate(lib: Library, rule: Rule, occurrences: seq<Occurrence>)
    requires DistinctPaths(occurrences)
    ensures DistinctIssuePaths(DuplicateIssues(lib, rule, occurrences))
  {
    var ids := Distinct(Map(occurrences, IdOf()));
    DistinctNoRepeats(Map(occurrences, IdOf()));
    PermutationNoRepeats(ids, Sort(ids, StringLeq));
    IssuesDistinct(lib, rule, occurrences, Sort(ids, StringLeq));
  }

  lemma {:induction false} IssuesDistinct(lib: Library, rule: Rule, occurrences: seq<Occurrence>, ids: seq<string>)
    requires DistinctPaths(occurrences) && NoRepeats(ids)
    ensures DistinctIssuePaths(FlatMap(ids, IssuesOfId(lib, rule, occurrences)))
  {
    if ids != [] {
      var n, f := |ids| - 1, IssuesOfId(lib, rule, occurrences);
      var before, more := FlatMap(ids[..n], f), f(ids[n]);
      IssuesDistinct(lib, rule, occurrences, ids[..n]);
      IdIssuesDistinct(lib, rule, occurrences, ids[n]);
      forall a <- before, b <- more ensures a.path != b.path {
        FlatMapMembers(ids[..n], f, a);
        var id :| id in ids[..n] && a in f(id);
        DifferentIds(lib, rule, occurrences, id, a, ids[n], b);
      }
      JoinDistinct(before, more);
    }
  }

  lemma DifferentIds(lib: Library, rule: Rule, occurrences: seq<Occurrence>, id: string, a: Issue, other: string,
          b: Issue)
    requires DistinctPaths(occurrences) && id != other
    ensures a in IdIssues(lib, rule, id, SortedPaths(occurrences, id))
            && b in IdIssues(lib, rule, other, SortedPaths(occurrences, other))
            ==> a.path != b.path
  {
    IssueOfId(lib, rule, occurrences, id, a);
    IssueOfId(lib, rule, occurrences, other, b);
    if Occurrence(id, a.path) in occurrences && Occurrence(other, b.path) in occurrences && a.path == b.path {
      SamePathSameId(occurrences, Occurrence(id, a.path), Occurrence(other, b.path));
    }
  }

  lemma SamePathSameId(occurrences: seq<Occurrence>, a: Occurrence, b: Occurrence)
    requires DistinctPaths(occurrences) && a in occurrences && b in occurrences && a.path == b.path
    ensures a == b
  {
    var i :| 0 <= i < |occurrences| && occurrences[i] == a;
    var j :| 0 <= j < |occurrences| && occurrences[j] == b;
  }

  lemma JoinDistinct(a: seq<Issue>, b: seq<Issue>)
    requires DistinctIssuePaths(a) && DistinctIssuePaths(b) && forall x <- a, y <- b :: x.path != y.path
    ensures DistinctIssuePaths(a + b)
  {
  }

  lemma IdIssuesDistinct(lib: Library, rule: Rule, occurrences: seq<Occurrence>, id: string)
    requires DistinctPaths(occurrences)
    ensures DistinctIssuePaths(IdIssues(lib, rule, id, SortedPaths(occurrences, id)))
  {
    var sorted := SortedPaths(occurrences, id);
    PathsDistinct(occurrences, id);
    PermutationNoRepeats(Paths(occurrences, id), sorted);
    var issues := IdIssues(lib, rule, id, sorted);
    forall i, j | 0 <= i < j < |issues| ensures issues[i].path != issues[j].path {
      MapAt(sorted, IdIssue(lib, rule, id, sorted), i);
      MapAt(sorted, IdIssue(lib, rule, id, sorted), j);
    }
  }
}
