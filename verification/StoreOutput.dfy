/** The whole validation: paths are unique, and the output does not depend on the order of the keys. */
module StoreOutput {
  import opened Distinctness
  import opened Options
  import opened Ordering
  import opened Revisions
  import opened Sequences
  import opened StoreValidation

  // ---------------------------------------------------------------- paths are unique

  lemma DigitsBehindBracket(a: string, d: string, b: string, e: string)
    requires a + "[" + d == b + "[" + e && AllDigits(d) && AllDigits(e)
    ensures a == b && d == e
  {
    var s, t := a + "[" + d, b + "[" + e;
    assert s[|a|] == '[' && t[|b|] == '[' && |s| == |a| + 1 + |d| && |t| == |b| + 1 + |e|;
    assert forall i :: |a| < i < |s| ==> Digit(s[i]);
    assert forall i :: |b| < i < |t| ==> Digit(t[i]);
    assert |a| == |b|;
    assert s[..|a|] == a && t[..|b|] == b && s[|a| + 1..] == d && t[|b| + 1..] == e;
  }

  lemma CommonEnds(prefix: string, a: string, b: string, suffix: string)
    requires prefix + a + suffix == prefix + b + suffix
    ensures a == b
  {
    var s, t := prefix + a + suffix, prefix + b + suffix;
    assert |s| == |t| && s[|prefix|..|prefix| + |a|] == a && t[|prefix|..|prefix| + |b|] == b;
  }

  function KeyPart(key: string): string { key + ".entries" }

  lemma EntryPathInjective(key: string, index: nat, other: string, otherIndex: nat, field: string)
    requires EntryPath(key, index, field) == EntryPath(other, otherIndex, field)
    ensures key == other && index == otherIndex
  {
    var d, e := Decimal(index), Decimal(otherIndex);
    var suffix := "]." + field;
    assert EntryPath(key, index, field) == "content." + (KeyPart(key) + "[" + d) + suffix;
    assert EntryPath(other, otherIndex, field) == "content." + (KeyPart(other) + "[" + e) + suffix;
    CommonEnds("content.", KeyPart(key) + "[" + d, KeyPart(other) + "[" + e, suffix);
    DigitsBehindBracket(KeyPart(key), d, KeyPart(other), e);
    assert KeyPart(key)[..|key|] == key && KeyPart(other)[..|other|] == other;
  }

  /** An occurrence of an object's entry, with its place. */
  ghost predicate At(o: Occurrence, key: string, index: nat) { o.path == EntryPath(key, index, "id") }

  lemma {:induction false} SectionPlaces(s: (string, Section), n: nat)
    requires n <= |s.1.entries|
    ensures var found := FlatMap(Indexed(s.1.entries)[..n], EntryOccurrence(s.0));
            |found| == n && forall i :: 0 <= i < n ==> At(found[i], s.0, i)
  {
    hide EntryPath;
    if n > 0 {
      SectionPlaces(s, n - 1);
      FlatMapStep(Indexed(s.1.entries), EntryOccurrence(s.0), n - 1);
    }
  }

  lemma SectionOccurrencesPlaced(s: (string, Section))
    ensures var found := SectionOccurrences()(s); forall i :: 0 <= i < |found| ==> At(found[i], s.0, i)
  {
    SectionPlaces(s, |s.1.entries|);
    Whole(Indexed(s.1.entries));
  }

  /** Different keys give different paths, so the entry identifiers of an object are found at different places. */
  lemma {:induction false} EntryPathsDistinct(content: Content)
    requires IsObject(content)
    ensures DistinctPaths(EntryOccurrences(content))
  {
    if content != [] {
      var n := |content| - 1;
      var before, more := EntryOccurrences(content[..n]), SectionOccurrences()(content[n]);
      ObjectPrefix(content);
      EntryPathsDistinct(content[..n]);
      SectionOccurrencesPlaced(content[n]);
      forall i, j | 0 <= i < j < |more| ensures more[i].path != more[j].path {
        if more[i].path == more[j].path { EntryPathInjective(content[n].0, i, content[n].0, j, "id"); }
      }
      forall o <- before, j | 0 <= j < |more| ensures o.path != more[j].path {
        EarlierSection(content, o, more[j], j);
      }
    }
  }

  lemma ObjectPrefix(content: Content)
    requires IsObject(content) && content != []
    ensures IsObject(content[..|content| - 1])
    ensures forall s <- content[..|content| - 1] :: s.0 != content[|content| - 1].0
  {
    var n := |content| - 1;
    forall i | 0 <= i < n ensures Keys(content[..n])[i] == Keys(content)[i] == content[i].0 {
      MapAt(content, KeyOf(), i);
      MapAt(content[..n], KeyOf(), i);
    }
    MapAt(content, KeyOf(), n);
  }

  lemma EarlierSection(content: Content, o: Occurrence, last: Occurrence, j: nat)
    requires IsObject(content) && content != []
    requires o in EntryOccurrences(content[..|content| - 1]) && At(last, content[|content| - 1].0, j)
    ensures o.path != last.path
  {
    var n := |content| - 1;
    ObjectPrefix(content);
    FlatMapMembers(content[..n], SectionOccurrences(), o);
    var s :| s in content[..n] && o in SectionOccurrences()(s);
    SectionOccurrencesPlaced(s);
    var i :| 0 <= i < |SectionOccurrences()(s)| && SectionOccurrences()(s)[i] == o;
    if o.path == last.path { EntryPathInjective(s.0, i, content[n].0, j, "id"); }
  }

  /** Silent exactly when all identifiers differ, otherwise exactly one issue per repeated place, and no other. */
  ghost predicate ExactlyTheDuplicates(lib: Library, rule: Rule, found: seq<Occurrence>, issues: seq<Issue>) {
    && (issues == [] <==> NoRepeats(Map(found, IdOf())))
    && DistinctIssuePaths(issues)
    && (forall o <- found :: Repeated(found, o.id) <==> exists issue <- issues :: issue.path == o.path)
    && (forall issue <- issues :: IsPeerIssue(lib, rule, found, issue))
  }

  lemma IdsExact(lib: Library, rule: Rule, found: seq<Occurrence>)
    requires DistinctPaths(found)
    ensures ExactlyTheDuplicates(lib, rule, found, DuplicateIssues(lib, rule, found))
  {
    hide DuplicateIssues, Repeated, Map, NamesPeers;
    var issues := DuplicateIssues(lib, rule, found);
    NoDuplicatesExact(lib, rule, found);
    OneIssuePerDuplicate(lib, rule, found);
    EveryIssueIsADuplicate(lib, rule, found);
    forall o <- found ensures Repeated(found, o.id) <==> exists issue <- issues :: issue.path == o.path {
      if Repeated(found, o.id) { EveryDuplicateIsReported(lib, rule, found, o); }
      forall issue <- issues | issue.path == o.path ensures Repeated(found, o.id) {
        assert IsPeerIssue(lib, rule, found, issue);
        var other, shown, remaining :| other in found && Repeated(found, other.id)
                                       && NamesPeers(found, other, shown, remaining)
                                       && issue == PeerIssue(lib, rule, other.id, other.path, shown, remaining);
        SamePathSameId(found, o, other);
      }
    }
  }

  /** The entry rule on whole documents. */
  lemma EntryIdsExact(lib: Library, content: Content)
    requires IsObject(content)
    ensures var found := EntryOccurrences(content);
            ExactlyTheDuplicates(lib, DuplicateEntryId, found, DuplicateIssues(lib, DuplicateEntryId, found))
  {
    EntryPathsDistinct(content);
    IdsExact(lib, DuplicateEntryId, EntryOccurrences(content));
  }

  function DetailPath(index: nat): string { "personalDetails.details[" + Decimal(index) + "].id" }

  lemma DetailPathInjective(index: nat, other: nat)
    requires DetailPath(index) == DetailPath(other)
    ensures index == other
  {
    CommonEnds("personalDetails.details[", Decimal(index), Decimal(other), "].id");
  }

  lemma {:induction false} DetailPlaces(details: seq<Option<Detail>>, n: nat)
    requires n <= |details|
    ensures var found := FlatMap(Indexed(details)[..n], DetailOccurrence());
            |found| == n && forall i :: 0 <= i < n ==> found[i].path == DetailPath(i)
  {
    if n > 0 {
      DetailPlaces(details, n - 1);
      FlatMapStep(Indexed(details), DetailOccurrence(), n - 1);
    }
  }

  /** The contact detail rule on whole documents, and there is one identifier per detail. */
  lemma DetailIdsExact(lib: Library, details: seq<Option<Detail>>)
    ensures var found := DetailOccurrences(details);
            |found| == |details|
                && ExactlyTheDuplicates(lib, DuplicateDetailId, found, DuplicateIssues(lib, DuplicateDetailId, found))
  {
    var found := DetailOccurrences(details);
    DetailPlaces(details, |details|);
    Whole(Indexed(details));
    forall i, j | 0 <= i < j < |found| ensures found[i].path != found[j].path {
      if found[i].path == found[j].path { DetailPathInjective(i, j); }
    }
    IdsExact(lib, DuplicateDetailId, found);
  }

  // ---------------------------------------------------------------- the other rules, and all of them

  /** Contact types that hold plain text; every other type must be an https URL or empty. */
  predicate ExemptFromUrl(kind: Option<string>) {
    kind.Some? && (kind.value == "email" || kind.value == "phone" || kind.value == "location" || kind.value == "custom")
  }

  function DetailUrl(lib: Library): ((nat, Option<Detail>)) -> seq<Issue> {
    (d: (nat, Option<Detail>)) =>
      var path := "personalDetails.details[" + Decimal(d.0) + "].value";
      if d.1.None? || ExemptFromUrl(d.1.value.kind) || d.1.value.value.None? || d.1.value.value.value == ""
         || "https://" <= d.1.value.value.value then []
      else [lib.Report(PersonalDetailUrlScheme, path, NotHttps(path, d.1.value.kind))]
  }

  predicate HasDots(key: string) { exists i :: 0 <= i < |key| - 1 && key[i] == '.' && key[i + 1] == '.' }

  function PhotoIssues(lib: Library, key: Option<string>): seq<Issue> {
    if key.Some? && HasDots(key.value)
    then [lib.Report(PhotoKeyPathTraversal, "personalDetails.photo.key", ContainsDots(key.value))] else []
  }

  function AllIssues(lib: Library, doc: Document): seq<Issue> {
    FlatMap(doc.content, SectionLengths(lib))
    + LayoutIssues(lib, Keys(doc.content), doc.main + doc.sidebar)
    + FlatMap(doc.content, SectionDates(lib))
    + DuplicateIssues(lib, DuplicateEntryId, EntryOccurrences(doc.content))
    + FlatMap(Indexed(doc.details), DetailUrl(lib))
    + DuplicateIssues(lib, DuplicateDetailId, DetailOccurrences(doc.details))
    + PhotoIssues(lib, doc.photoKey)
  }

  /** By path, then rule, then message. */
  predicate IssueLeq(a: Issue, b: Issue) {
    if a.path != b.path then StringLeq(a.path, b.path)
    else if a.rule != b.rule then StringLeq(a.rule, b.rule)
    else StringLeq(a.message, b.message)
  }

  lemma IssueOrder()
    ensures TotalOrder(IssueLeq)
  {
    StringOrder();
    forall a, b ensures IssueLeq(a, b) || IssueLeq(b, a) {}
    forall a, b | IssueLeq(a, b) && IssueLeq(b, a) ensures a == b { SameIssue(a, b); }
    forall a, b, c | IssueLeq(a, b) && IssueLeq(b, c) ensures IssueLeq(a, c) { IssueTransitive(a, b, c); }
  }

  lemma {:induction false} SameIssue(a: Issue, b: Issue)
    requires IssueLeq(a, b) && IssueLeq(b, a)
    ensures a == b
  {
    if a.path != b.path { StringLeqAntisymmetric(a.path, b.path); }
    else if a.rule != b.rule { StringLeqAntisymmetric(a.rule, b.rule); }
    else { StringLeqAntisymmetric(a.message, b.message); }
  }

  lemma {:induction false} IssueTransitive(a: Issue, b: Issue, c: Issue)
    requires IssueLeq(a, b) && IssueLeq(b, c)
    ensures IssueLeq(a, c)
  {
    if a.path == b.path == c.path {
      if a.rule == b.rule == c.rule { StringLeqTransitive(a.message, b.message, c.message); }
      else {
        if StringLeq(a.rule, b.rule) && StringLeq(b.rule, c.rule) { StringLeqTransitive(a.rule, b.rule, c.rule); }
        if a.rule == c.rule { StringLeqAntisymmetric(a.rule, b.rule); }
      }
    } else {
      if StringLeq(a.path, b.path) && StringLeq(b.path, c.path) { StringLeqTransitive(a.path, b.path, c.path); }
      if a.path == c.path { StringLeqAntisymmetric(a.path, b.path); }
    }
  }

  function Validate(lib: Library, doc: Document): seq<Issue> { Sort(AllIssues(lib, doc), IssueLeq) }

  method ValidateDocument(lib: Library, doc: Option<Document>) returns (issues: seq<Issue>)
    ensures issues == if doc.None? then [] else Validate(lib, doc.value)
  {
    if doc.None? { return []; }
    var content := doc.value.content;
    var lengths := FlatMap(content, SectionLengths(lib));
    var layout := ValidateLayoutSections(lib, Keys(content), doc.value.main, doc.value.sidebar);
    var dates := FlatMap(content, SectionDates(lib));
    var entryIds := ValidateUniqueness(lib, DuplicateEntryId, EntryOccurrences(content));
    var urls := FlatMap(Indexed(doc.value.details), DetailUrl(lib));
    var detailIds := ValidateUniqueness(lib, DuplicateDetailId, DetailOccurrences(doc.value.details));
    var photo := PhotoIssues(lib, doc.value.photoKey);
    issues := Sort(lengths + layout + dates + entryIds + urls + detailIds + photo, IssueLeq);
  }

  // ---------------------------------------------------------------- canonical output

  /** The same object with its keys in another order. */
  lemma SameMapPermutes(a: Content, b: Content)
    requires IsObject(a) && IsObject(b) && SameMap(a, b)
    ensures multiset(a) == multiset(b) && multiset(Keys(a)) == multiset(Keys(b))
  {
    ObjectNoRepeats(a);
    ObjectNoRepeats(b);
    CountElements(a);
    CountElements(b);
    assert Elements(a) == Elements(b);
    KeysPermute(a, b);
  }

  lemma ObjectNoRepeats(content: Content)
    requires IsObject(content)
    ensures NoRepeats(content)
  {
    forall i, j | 0 <= i < j < |content| ensures content[i] != content[j] {
      MapAt(content, KeyOf(), i);
      MapAt(content, KeyOf(), j);
    }
  }

  /** A list of keys is itself a concatenation. */
  lemma KeysPermute(a: Content, b: Content)
    requires multiset(a) == multiset(b)
    ensures multiset(Keys(a)) == multiset(Keys(b))
  {
    MapIsFlat(a, KeyOf());
    MapIsFlat(b, KeyOf());
    FlatMapPermutation(a, b, Singly(KeyOf()));
  }

  function Singly<T, U>(f: T -> U): T -> seq<U> { (x: T) => [f(x)] }

  lemma {:induction false} MapIsFlat<T, U>(s: seq<T>, f: T -> U)
    ensures Map(s, f) == FlatMap(s, Singly(f))
  {
    if s != [] { MapIsFlat(s[..|s| - 1], f); }
  }

  /** Every identifier rule gives the same list for any order of the same occurrences. */
  lemma DuplicatesCanonical(lib: Library, rule: Rule, a: seq<Occurrence>, b: seq<Occurrence>)
    requires multiset(a) == multiset(b)
    ensures DuplicateIssues(lib, rule, a) == DuplicateIssues(lib, rule, b)
  {
    var ids, others := Map(a, IdOf()), Map(b, IdOf());
    MapIsFlat(a, IdOf());
    MapIsFlat(b, IdOf());
    FlatMapPermutation(a, b, Singly(IdOf()));
    forall id ensures id in ids <==> id in others {
      assert id in multiset(ids) <==> id in multiset(others);
    }
    DistinctPermutation(ids, others);
    StringOrder();
    SortDecidesMultiset(Distinct(ids), Distinct(others), StringLeq);
    forall id ensures IssuesOfId(lib, rule, a)(id) == IssuesOfId(lib, rule, b)(id) {
      FlatMapPermutation(a, b, PathsOf(id));
      SortDecidesMultiset(Paths(a, id), Paths(b, id), StringLeq);
    }
    FlatMapSame(Sort(Distinct(ids), StringLeq), IssuesOfId(lib, rule, a), IssuesOfId(lib, rule, b));
  }

  lemma {:induction false} FlatMapSame<T(!new), U>(s: seq<T>, f: T -> seq<U>, g: T -> seq<U>)
    requires forall x :: f(x) == g(x)
    ensures FlatMap(s, f) == FlatMap(s, g)
  {
    if s != [] { FlatMapSame(s[..|s| - 1], f, g); }
  }

  lemma LayoutCanonical(lib: Library, keys: seq<string>, others: seq<string>, placements: seq<string>)
    requires multiset(keys) == multiset(others)
    ensures multiset(LayoutIssues(lib, keys, placements)) == multiset(LayoutIssues(lib, others, placements))
  {
    forall key ensures key in keys <==> key in others {
      assert key in multiset(keys) <==> key in multiset(others);
    }
    assert KeySet(keys) == KeySet(others);
    FlatMapPermutation(keys, others, Orphan(lib, placements));
  }

  /** Documents that are equal as maps give the same issues in the same order. */
  lemma ValidateIsCanonical(lib: Library, a: Document, b: Document)
    requires IsObject(a.content) && IsObject(b.content) && SameMap(a.content, b.content)
    requires a == b.(content := a.content)
    ensures Validate(lib, a) == Validate(lib, b)
  {
    SameMapPermutes(a.content, b.content);
    FlatMapPermutation(a.content, b.content, SectionLengths(lib));
    FlatMapPermutation(a.content, b.content, SectionDates(lib));
    FlatMapPermutation(a.content, b.content, SectionOccurrences());
    LayoutCanonical(lib, Keys(a.content), Keys(b.content), a.main + a.sidebar);
    DuplicatesCanonical(lib, DuplicateEntryId, EntryOccurrences(a.content), EntryOccurrences(b.content));
    IssueOrder();
    SortDecidesMultiset(AllIssues(lib, a), AllIssues(lib, b), IssueLeq);
  }

  /** And the order is the documented one, with nothing added or lost. */
  lemma ValidateSorts(lib: Library, doc: Document)
    ensures Sorted(Validate(lib, doc), IssueLeq) && multiset(Validate(lib, doc)) == multiset(AllIssues(lib, doc))
    ensures var issues := Validate(lib, doc);
            forall i, j :: 0 <= i < j < |issues| ==>
              var a, b := issues[i], issues[j];
              && StringLeq(a.path, b.path)
              && (a.path == b.path ==> StringLeq(a.rule, b.rule))
              && (a.path == b.path && a.rule == b.rule ==> StringLeq(a.message, b.message))
  {
    hide AllIssues;
    IssueOrder();
    SortSorted(AllIssues(lib, doc), IssueLeq);
    var issues := Validate(lib, doc);
    hide TotalOrder, Validate;
    forall i, j | 0 <= i < j < |issues| { IssueLeqMeans(issues[i], issues[j]); }
  }

  lemma IssueLeqMeans(a: Issue, b: Issue)
    requires IssueLeq(a, b)
    ensures StringLeq(a.path, b.path) && (a.path == b.path ==> StringLeq(a.rule, b.rule))
    ensures a.path == b.path && a.rule == b.rule ==> StringLeq(a.message, b.message)
  {
    StringLeqTotal(a.path, a.path);
    StringLeqTotal(a.rule, a.rule);
  }
}
