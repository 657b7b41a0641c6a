/** Sequences without repetitions, compared by counting. */
module Distinctness {
  ghost predicate NoRepeats<T>(s: seq<T>) {
    forall i, j :: 0 <= i < j < |s| ==> s[i] != s[j]
  }

  function Elements<T>(s: seq<T>): set<T> {
    set x | x in s
  }

  lemma {:induction false} CountElements<T>(s: seq<T>)
    requires NoRepeats(s)
    ensures |Elements(s)| == |s| && multiset(s) == multiset(Elements(s))
  {
    if s != [] {
      var rest, last := s[..|s| - 1], s[|s| - 1];
      CountElements(rest);
      assert s == rest + [last] && last !in rest;
      assert Elements(s) == Elements(rest) + {last};
    }
  }

  /** The pigeonhole principle for sets: a subset that is at least as large is the whole. */
  lemma {:induction false} LargeSubsetIsAll<T>(a: set<T>, b: set<T>)
    requires a <= b && |a| >= |b|
    ensures a == b
  {
    if b != {} {
      var x :| x in b;
      if x in a {
        LargeSubsetIsAll(a - {x}, b - {x});
      } else {
        SubsetSize(a, b - {x});
      }
    }
  }

  lemma {:induction false} SubsetSize<T>(a: set<T>, b: set<T>)
    requires a <= b
    ensures |a| <= |b|
  {
    if a != {} {
      var x :| x in a;
      SubsetSize(a - {x}, b - {x});
    }
  }
}

/** Reading an account: listings, snapshots, and what they say about one another. */
module Listings {
  import opened Distinctness
  import opened Options
  import opened Ordering
  import opened Uuids

  const SOURCE_LANGUAGE := "en"
  const TARGET_LANGUAGE := "vi"
  const MAX_BASELINE_RESUMES := 2
  const MAX_LISTED_RESUMES := MAX_BASELINE_RESUMES + 1

  /** A listed resume. Times are instants. */
  datatype Summary = Summary(
    id: string, title: string, lng: string, revision: string, live: bool, slug: Option<string>, downloadEnabled: bool,
    seoGeoEnabled: bool, publicTitle: Option<string>, faviconEmoji: Option<string>, schemaVersion: int,
    createdAt: int, updatedAt: int)

  predicate SameSummary(left: Summary, right: Summary)
    ensures SameSummary(left, right) <==> left == right
  {
    && left.id == right.id && left.title == right.title && left.lng == right.lng && left.revision == right.revision
    && left.live == right.live && left.slug == right.slug && left.downloadEnabled == right.downloadEnabled
    && left.seoGeoEnabled == right.seoGeoEnabled && left.publicTitle == right.publicTitle
    && left.faviconEmoji == right.faviconEmoji && left.schemaVersion == right.schemaVersion
    && left.createdAt == right.createdAt && left.updatedAt == right.updatedAt
  }

  function Ids(listing: seq<Summary>): (ids: seq<string>)
    ensures |ids| == |listing| && forall i :: 0 <= i < |ids| ==> ids[i] == listing[i].id
  {
    seq(|listing|, i requires 0 <= i < |listing| => listing[i].id)
  }

  ghost predicate DistinctListing(listing: seq<Summary>) {
    NoRepeats(Ids(listing))
  }

  method DistinctIds(listing: seq<Summary>) returns (distinct: bool)
    ensures distinct <==> DistinctListing(listing)
  {
    var seen: map<string, bool> := map[];
    for i := 0 to |listing|
      invariant NoRepeats(Ids(listing)[..i])
      invariant forall id :: id in seen <==> id in Ids(listing)[..i]
    {
      assert Ids(listing)[i] == listing[i].id;
      if listing[i].id in seen {
        var k :| 0 <= k < i && Ids(listing)[..i][k] == listing[i].id;
        return false;
      }
      seen := seen[listing[i].id := true];
      assert Ids(listing)[..i + 1] == Ids(listing)[..i] + [listing[i].id];
    }
    assert Ids(listing)[..|listing|] == Ids(listing);
    return true;
  }

  /** The account that a fresh run may start from: small, without repeated identifiers, and one resume in English. */
  ghost predicate OneSource(listing: seq<Summary>, i: int) {
    && 0 <= i < |listing| <= MAX_BASELINE_RESUMES && DistinctListing(listing)
    && forall k :: 0 <= k < |listing| ==> (listing[k].lng == SOURCE_LANGUAGE <==> k == i)
  }

  /** At most two resumes, with different identifiers, of which this one is in English and no other. */
  lemma OneSourceMeans(listing: seq<Summary>, i: int)
    ensures OneSource(listing, i) <==>
              && 0 <= i < |listing| <= 2 && listing[i].lng == "en"
              && (forall j, k :: 0 <= j < k < |listing| ==> listing[j].id != listing[k].id)
              && forall k :: 0 <= k < |listing| && listing[k].lng == "en" ==> k == i
  {
    assert forall k :: 0 <= k < |listing| ==> Ids(listing)[k] == listing[k].id;
  }

  /** Finds the one source, or refuses the account. Listed identifiers are never empty. */
  method SelectEnglishSource(listing: seq<Summary>) returns (source: Option<string>)
    requires forall item <- listing :: item.id != ""
    ensures source.Some? ==> exists i :: OneSource(listing, i) && source.value == listing[i].id
    ensures source.None? ==> forall i :: !OneSource(listing, i)
  {
    if |listing| == 0 || |listing| > MAX_BASELINE_RESUMES { return None; }
    var distinct := DistinctIds(listing);
    if !distinct { return None; }
    var found := "";
    ghost var at := 0;
    for k := 0 to |listing|
      invariant found == "" ==> forall j :: 0 <= j < k ==> listing[j].lng != SOURCE_LANGUAGE
      invariant found != "" ==> 0 <= at < k && listing[at].id == found
                                && forall j :: 0 <= j < k ==> (listing[j].lng == SOURCE_LANGUAGE <==> j == at)
    {
      if listing[k].lng != SOURCE_LANGUAGE { continue; }
      if found != "" {
        assert listing[at].lng == SOURCE_LANGUAGE && at != k;
        return None;
      }
      found := listing[k].id;
      at := k;
    }
    if found == "" {
      forall i ensures !OneSource(listing, i) {
        assert 0 <= i < |listing| ==> listing[i].lng != SOURCE_LANGUAGE;
      }
      return None;
    }
    assert OneSource(listing, at);
    return Some(found);
  }

  /** Whether two listings agree but for their order. Neither may repeat an identifier. */
  method SameListing(left: seq<Summary>, right: seq<Summary>) returns (same: bool)
    ensures same <==> DistinctListing(left) && DistinctListing(right) && multiset(left) == multiset(right)
  {
    if |left| != |right| {
      assert |multiset(left)| == |left| && |multiset(right)| == |right|;
      return false;
    }
    var byId: map<string, Summary> := map[];
    for i := 0 to |right|
      invariant forall id <- byId :: byId[id] in right && byId[id].id == id
      invariant forall k :: 0 <= k < i ==> right[k].id in byId
      invariant DistinctListing(right) ==> forall k :: 0 <= k < i ==> byId[right[k].id] == right[k]
    {
      byId := byId[right[i].id := right[i]];
      assert DistinctListing(right) ==> forall k :: 0 <= k < i ==> Ids(right)[k] != Ids(right)[i];
    }
    for i := 0 to |left|
      invariant forall k :: 0 <= k < i ==> left[k] in right
    {
      if left[i].id !in byId || !SameSummary(left[i], byId[left[i].id]) {
        assert left[i] in multiset(left);
        return false;
      }
    }
    var leftDistinct := DistinctIds(left);
    var rightDistinct := DistinctIds(right);
    same := leftDistinct && rightDistinct;
    if same { SubsetIsPermutation(left, right); }
  }

  lemma DistinctIdsNoRepeats(listing: seq<Summary>)
    requires DistinctListing(listing)
    ensures NoRepeats(listing)
  {
    forall i, j | 0 <= i < j < |listing| ensures listing[i] != listing[j] {
      assert Ids(listing)[i] != Ids(listing)[j];
    }
  }

  /** Membership one way and equal lengths make a permutation, when nothing repeats. */
  lemma SubsetIsPermutation(left: seq<Summary>, right: seq<Summary>)
    requires DistinctListing(left) && DistinctListing(right) && |left| == |right|
    requires forall k :: 0 <= k < |left| ==> left[k] in right
    ensures multiset(left) == multiset(right)
  {
    DistinctIdsNoRepeats(left);
    DistinctIdsNoRepeats(right);
    CountElements(left);
    CountElements(right);
    LargeSubsetIsAll(Elements(left), Elements(right));
  }

  // ---------------------------------------------------------------- the stored baseline

  /** The account binding: a digest of the origin and the sorted identifiers, with the digest taken as injective. */
  datatype Binding = Binding(origin: string, sortedIds: seq<string>)

  function AccountBinding(origin: string, ids: seq<string>): Binding {
    Binding(origin, Sort(ids, StringLeq))
  }

  datatype Baseline = Baseline(origin: string, binding: Binding, ids: seq<string>)

  /** What a durable intent guarantees about its baseline. */
  ghost predicate ValidBaseline(b: Baseline) {
    0 < |b.ids| <= MAX_BASELINE_RESUMES && NoRepeats(b.ids) && b.binding == AccountBinding(b.origin, b.ids)
  }

  /** One or two different identifiers, bound with their origin in sorted order. */
  lemma StoredBaseline(b: Baseline)
    ensures ValidBaseline(b) <==>
              && 1 <= |b.ids| <= 2 && (forall i, j :: 0 <= i < j < |b.ids| ==> b.ids[i] != b.ids[j])
              && b.binding.origin == b.origin && multiset(b.binding.sortedIds) == multiset(b.ids)
              && Sorted(b.binding.sortedIds, StringLeq)
  {
    StringOrder();
    SortSorted(b.ids, StringLeq);
    if Sorted(b.binding.sortedIds, StringLeq) && multiset(b.binding.sortedIds) == multiset(b.ids) {
      SortedUnique(b.binding.sortedIds, Sort(b.ids, StringLeq), StringLeq);
    }
  }

  /** The checks of a stored intent that concern its baseline and its source. */
  method CheckBaseline(b: Baseline, sourceId: string) returns (ok: bool)
    ensures ok <==> ValidBaseline(b) && sourceId in b.ids && forall id <- b.ids :: ValidUuid(id)
  {
    if |b.ids| == 0 || |b.ids| > MAX_BASELINE_RESUMES || b.binding != AccountBinding(b.origin, b.ids) { return false; }
    var sourceFound := false;
    var seen: map<string, bool> := map[];
    for i := 0 to |b.ids|
      invariant NoRepeats(b.ids[..i]) && forall id <- b.ids[..i] :: ValidUuid(id)
      invariant forall id :: id in seen <==> id in b.ids[..i]
      invariant sourceFound <==> sourceId in b.ids[..i]
    {
      var id := b.ids[i];
      assert b.ids[..i + 1] == b.ids[..i] + [id];
      if !ValidUuid(id) || id in seen {
        assert id in b.ids;
        return false;
      }
      seen := seen[id := true];
      sourceFound := sourceFound || id == sourceId;
    }
    assert b.ids[..|b.ids|] == b.ids;
    return sourceFound;
  }

  /** The listed items whose identifier is, or is not, expected, in listing order. */
  function Select(listing: seq<Summary>, expected: set<string>, inside: bool): seq<Summary> {
    if listing == [] then []
    else
      var rest, last := Select(listing[..|listing| - 1], expected, inside), listing[|listing| - 1];
      if (last.id in expected) == inside then rest + [last] else rest
  }

  lemma {:induction false} SelectPartitions(listing: seq<Summary>, expected: set<string>)
    ensures multiset(listing) == multiset(Select(listing, expected, true)) + multiset(Select(listing, expected, false))
  {
    if listing != [] {
      var rest, last := listing[..|listing| - 1], listing[|listing| - 1];
      SelectPartitions(rest, expected);
      assert listing == rest + [last];
    }
  }

  lemma {:induction false} SelectMembers(listing: seq<Summary>, expected: set<string>, inside: bool)
    ensures forall item <- Select(listing, expected, inside) :: item in listing && (item.id in expected) == inside
  {
    if listing != [] {
      SelectMembers(listing[..|listing| - 1], expected, inside);
    }
  }

  lemma SelectKeeps(listing: seq<Summary>, expected: set<string>, item: Summary)
    requires item in listing
    ensures item in Select(listing, expected, item.id in expected)
  {
    SelectPartitions(listing, expected);
    assert item in multiset(listing);
    assert item in multiset(Select(listing, expected, true)) + multiset(Select(listing, expected, false));
    SelectMembers(listing, expected, item.id !in expected);
  }

  lemma {:induction false} SelectDistinct(listing: seq<Summary>, expected: set<string>, inside: bool)
    requires DistinctListing(listing)
    ensures DistinctListing(Select(listing, expected, inside))
  {
    if listing != [] {
      var rest, last := listing[..|listing| - 1], listing[|listing| - 1];
      forall i, j | 0 <= i < j < |rest| ensures Ids(rest)[i] != Ids(rest)[j] {
        assert Ids(listing)[i] != Ids(listing)[j];
      }
      SelectDistinct(rest, expected, inside);
      SelectMembers(rest, expected, inside);
      var kept := Select(rest, expected, inside);
      forall i | 0 <= i < |kept| ensures kept[i].id != last.id {
        var k :| 0 <= k < |rest| && rest[k] == kept[i];
        assert Ids(listing)[k] != Ids(listing)[|rest|];
      }
      assert Ids(kept + [last]) == Ids(kept) + [last.id];
    }
  }

  /** Divides a listing into what the intent knows and what it does not. */
  method SplitBaseline(listing: seq<Summary>, b: Baseline) returns (split: Option<(seq<Summary>, seq<Summary>)>)
    ensures split.Some? <==>
              && |listing| <= 3 && DistinctListing(listing)
              && var expected := Elements(b.ids);
                 |Select(listing, expected, true)| == |b.ids| && |Select(listing, expected, false)| <= 1
                 && AccountBinding(b.origin, Ids(Select(listing, expected, true))) == b.binding
    ensures split.Some? ==>
            split.value == (Select(listing, Elements(b.ids), true), Select(listing, Elements(b.ids), false))
  {
    var distinct := DistinctIds(listing);
    if |listing| > MAX_LISTED_RESUMES || !distinct { return None; }
    var expected: map<string, bool> := map[];
    for i := 0 to |b.ids|
      invariant expected.Keys == Elements(b.ids[..i])
    {
      expected := expected[b.ids[i] := true];
      assert b.ids[..i + 1] == b.ids[..i] + [b.ids[i]];
    }
    assert b.ids[..|b.ids|] == b.ids;
    var baseline: seq<Summary>, extras: seq<Summary> := [], [];
    for i := 0 to |listing|
      invariant baseline == Select(listing[..i], Elements(b.ids), true)
      invariant extras == Select(listing[..i], Elements(b.ids), false)
    {
      assert listing[..i + 1][..i] == listing[..i];
      if listing[i].id in expected { baseline := baseline + [listing[i]]; } else { extras := extras + [listing[i]]; }
    }
    assert listing[..|listing|] == listing;
    if |baseline| != |b.ids| || |extras| > 1 || AccountBinding(b.origin, Ids(baseline)) != b.binding { return None; }
    return Some((baseline, extras));
  }

  lemma SelectedIds(listing: seq<Summary>, expected: set<string>)
    requires DistinctListing(listing)
    ensures Elements(Ids(Select(listing, expected, true))) == Elements(Ids(listing)) * expected
    ensures |Elements(Ids(Select(listing, expected, true)))| == |Select(listing, expected, true)|
  {
    var kept := Select(listing, expected, true);
    SelectMembers(listing, expected, true);
    SelectDistinct(listing, expected, true);
    CountElements(Ids(kept));
    forall id | id in Elements(Ids(listing)) * expected ensures id in Ids(kept) {
      var k :| 0 <= k < |listing| && Ids(listing)[k] == id;
      SelectKeeps(listing, expected, listing[k]);
      var m :| 0 <= m < |kept| && kept[m] == listing[k];
      assert Ids(kept)[m] == id;
    }
    forall id | id in Ids(kept) ensures id in Elements(Ids(listing)) * expected {
      var m :| 0 <= m < |kept| && Ids(kept)[m] == id;
      assert kept[m] in listing;
      var k :| 0 <= k < |listing| && listing[k] == kept[m];
      assert Ids(listing)[k] == id;
    }
  }

  /** Counting decides containment: a valid baseline splits a listing exactly when every stored resume is
      listed, none is listed twice and at most one is new. The binding then always agrees. */
  lemma SplitIsExact(listing: seq<Summary>, b: Baseline)
    requires ValidBaseline(b) && DistinctListing(listing)
    ensures var expected := Elements(b.ids);
            (|Select(listing, expected, true)| == |b.ids| <==> Elements(b.ids) <= Elements(Ids(listing)))
            && (|Select(listing, expected, true)| == |b.ids| ==>
                  Elements(Ids(Select(listing, expected, true))) == expected
                  && AccountBinding(b.origin, Ids(Select(listing, expected, true))) == b.binding
                  && |Select(listing, expected, false)| == |listing| - |b.ids|)
  {
    var expected := Elements(b.ids);
    var kept := Select(listing, expected, true);
    var dropped := Select(listing, expected, false);
    SelectedIds(listing, expected);
    CountElements(b.ids);
    SelectPartitions(listing, expected);
    assert |multiset(listing)| == |listing| && |multiset(kept)| == |kept| && |multiset(dropped)| == |dropped|;
    if |kept| == |b.ids| {
      LargeSubsetIsAll(Elements(Ids(kept)), expected);
      SelectDistinct(listing, expected, true);
      CountElements(Ids(kept));
      StringOrder();
      SortDecidesMultiset(Ids(kept), b.ids, StringLeq);
    }
    if expected <= Elements(Ids(listing)) {
      assert Elements(Ids(listing)) * expected == expected;
    }
  }
}
