/** What the validation reports: for every rule, exactly the places that break it. */
module StoreReport {
  import opened Options
  import opened Ordering
  import opened Revisions
  import opened Sequences
  import opened StoreOutput
  import opened StoreValidation

  // ---------------------------------------------------------------- lists of lists

  lemma IndexedMembers<T(!new)>(s: seq<T>, x: (nat, T))
    ensures x in Indexed(s) <==> x.0 < |s| && s[x.0] == x.1
  {
    if x.0 < |s| && s[x.0] == x.1 { assert Indexed(s)[x.0] == x; }
  }

  /** Over a list with its positions. */
  lemma FlatIndexed<T(!new), U>(s: seq<T>, f: ((nat, T)) -> seq<U>, y: U)
    ensures y in FlatMap(Indexed(s), f) <==> exists i: nat :: i < |s| && y in f((i, s[i]))
  {
    FlatMapMembers(Indexed(s), f, y);
    forall x ensures x in Indexed(s) <==> x.0 < |s| && s[x.0] == x.1 { IndexedMembers(s, x); }
    if i: nat :| i < |s| && y in f((i, s[i])) { assert (i, s[i]) in Indexed(s); }
  }

  // ---------------------------------------------------------------- entries

  /** The one rich text of an entry, by the type of its section, under the name of its field. */
  function RichField(sectionType: Option<string>, e: Entry): Option<(string, string)> {
    if sectionType == Some("profile") then Named("text", e.text)
    else if sectionType == Some("skill") then Named("infoHtml", e.infoHtml)
    else if sectionType in {Some("work"), Some("education"), Some("certificate"), Some("project"), Some("custom")} then
      Named("description", e.description)
    else None
  }

  function Named(field: string, value: Option<string>): Option<(string, string)> {
    if value.None? then None else Some((field, value.value))
  }

  /** The rich text of this entry has more than 16384 bytes. */
  ghost predicate TooLongAt(lib: Library, s: (string, Section), i: nat, issue: Issue)
    requires i < |s.1.entries|
  {
    var rich := RichField(s.1.sectionType, s.1.entries[i]);
    && rich.Some? && lib.utf8Length(rich.value.1) > 16384
    && var path := "content." + s.0 + ".entries[" + Decimal(i) + "]." + rich.value.0;
       issue == lib.Report(RichTextByteLength, path, TooLong(path, lib.utf8Length(rich.value.1), 16384))
  }

  lemma EntryLengthMeans(lib: Library, s: (string, Section), i: nat, issue: Issue)
    requires i < |s.1.entries|
    ensures issue in EntryLength(lib, s.0, s.1.sectionType)((i, s.1.entries[i])) <==> TooLongAt(lib, s, i, issue)
  {
  }

  /** Exactly the rich texts that are too long are reported, each at its place. */
  lemma LengthsReported(lib: Library, content: Content, issue: Issue)
    ensures issue in FlatMap(content, SectionLengths(lib))
            <==> exists s <- content, i: nat :: i < |s.1.entries| && TooLongAt(lib, s, i, issue)
  {
    hide TooLongAt, EntryLength;
    FlatMapMembers(content, SectionLengths(lib), issue);
    forall s: (string, Section)
      ensures issue in SectionLengths(lib)(s) <==> exists i: nat :: i < |s.1.entries| && TooLongAt(lib, s, i, issue)
    {
      FlatIndexed(s.1.entries, EntryLength(lib, s.0, s.1.sectionType), issue);
      forall i: nat | i < |s.1.entries| { EntryLengthMeans(lib, s, i, issue); }
    }
  }

  /** The months from year 0; a date without a month counts as January. */
  function Months(d: YearMonth): int { 12 * d.year + (if d.month.None? then 1 else d.month.value) }

  /** This entry of a section with dates starts in a later month than it ends. */
  ghost predicate LateAt(lib: Library, s: (string, Section), i: nat, issue: Issue)
    requires i < |s.1.entries|
  {
    && s.1.sectionType in {Some("work"), Some("education"), Some("project"), Some("custom")}
    && exists start, end ::
         && s.1.entries[i].dates == Some(DateRange(Some(start), Some(end))) && Months(start) > Months(end)
         && var path := "content." + s.0 + ".entries[" + Decimal(i) + "].dates";
            issue == lib.Report(DateRangeOrder, path, StartsAfterEnd(path, start, end))
  }

  lemma EntryDatesMean(lib: Library, s: (string, Section), i: nat, issue: Issue)
    requires i < |s.1.entries|
    requires s.1.sectionType in {Some("work"), Some("education"), Some("project"), Some("custom")}
    ensures issue in DateOrder(lib, s.0)((i, s.1.entries[i])) <==> LateAt(lib, s, i, issue)
  {
    assert EntryPath(s.0, i, "dates") == "content." + s.0 + ".entries[" + Decimal(i) + "].dates";
    hide EntryPath;
  }

  /** Exactly the reversed date ranges are reported. */
  lemma DatesReported(lib: Library, content: Content, issue: Issue)
    ensures issue in FlatMap(content, SectionDates(lib))
            <==> exists s <- content, i: nat :: i < |s.1.entries| && LateAt(lib, s, i, issue)
  {
    hide DateOrder;
    FlatMapMembers(content, SectionDates(lib), issue);
    forall s: (string, Section)
      ensures issue in SectionDates(lib)(s) <==> exists i: nat :: i < |s.1.entries| && LateAt(lib, s, i, issue)
    {
      if s.1.sectionType in {Some("work"), Some("education"), Some("project"), Some("custom")} {
        FlatIndexed(s.1.entries, DateOrder(lib, s.0), issue);
        forall i: nat | i < |s.1.entries| { EntryDatesMean(lib, s, i, issue); }
      }
    }
  }

  // ---------------------------------------------------------------- layout, contact details and the photo

  /** Exactly the keys placed twice, placed without a section, or not placed are reported. */
  lemma LayoutReported(lib: Library, keys: seq<string>, placements: seq<string>, issue: Issue)
    ensures issue in LayoutIssues(lib, keys, placements) <==>
              || (exists key <- placements :: multiset(placements)[key] > 1 && issue
                    == lib.Report(LayoutExactlyOnce, "customization.layout.sections",
                                  PlacedTimes(key, multiset(placements)[key])))
              || (exists key <- placements :: key !in keys && issue
                    == lib.Report(LayoutMissingContentKey, "customization.layout.sections", NotInContent(key)))
              || (exists key <- keys :: key !in placements && issue
                    == lib.Report(LayoutOrphanContentKey, "customization.layout.sections", NotPlaced(key)))
  {
    FlatMapMembers(Distinct(placements), Placed(lib, KeySet(keys), placements), issue);
    FlatMapMembers(keys, Orphan(lib, placements), issue);
  }

  /** A contact detail that must be a URL, and is some other text. */
  ghost predicate NoUrlAt(lib: Library, details: seq<Option<Detail>>, i: nat, issue: Issue)
    requires i < |details|
  {
    && details[i].Some? && details[i].value.value.Some?
    && details[i].value.kind !in {Some("email"), Some("phone"), Some("location"), Some("custom")}
    && details[i].value.value.value != "" && !("https://" <= details[i].value.value.value)
    && var path := "personalDetails.details[" + Decimal(i) + "].value";
       issue == lib.Report(PersonalDetailUrlScheme, path, NotHttps(path, details[i].value.kind))
  }

  /** Exactly those are reported. */
  lemma UrlsReported(lib: Library, details: seq<Option<Detail>>, issue: Issue)
    ensures issue in FlatMap(Indexed(details), DetailUrl(lib))
            <==> exists i: nat :: i < |details| && NoUrlAt(lib, details, i, issue)
  {
    hide DetailUrl, NoUrlAt;
    FlatIndexed(details, DetailUrl(lib), issue);
    forall i: nat | i < |details| { DetailUrlMeans(lib, details, i, issue); }
  }

  lemma DetailUrlMeans(lib: Library, details: seq<Option<Detail>>, i: nat, issue: Issue)
    requires i < |details|
    ensures issue in DetailUrl(lib)((i, details[i])) <==> NoUrlAt(lib, details, i, issue)
  {
  }

  /** A photo key with two dots in a row, and no other. */
  lemma PhotoReported(lib: Library, key: Option<string>, issue: Issue)
    ensures issue in PhotoIssues(lib, key) <==>
              && (exists before, after :: key == Some(before + ".." + after))
              && issue == lib.Report(PhotoKeyPathTraversal, "personalDetails.photo.key", ContainsDots(key.value))
  {
    if key.Some? {
      if HasDots(key.value) {
        var i :| 0 <= i < |key.value| - 1 && key.value[i] == '.' && key.value[i + 1] == '.';
        assert key.value == key.value[..i] + ".." + key.value[i + 2..];
      }
      if before, after :| key == Some(before + ".." + after) {
        assert key.value[|before|] == '.' && key.value[|before| + 1] == '.';
      }
    }
  }

  // ---------------------------------------------------------------- identifiers, and the whole report

  /** The identifier of this entry, the empty one when it is missing, at its place. */
  ghost predicate IdAt(s: (string, Section), i: nat, o: Occurrence)
    requires i < |s.1.entries|
  {
    && o.path == "content." + s.0 + ".entries[" + Decimal(i) + "].id"
    && (s.1.entries[i].id == Some(o.id) || (s.1.entries[i].id.None? && o.id == ""))
  }

  lemma EntryIdMeans(s: (string, Section), i: nat, o: Occurrence)
    requires i < |s.1.entries|
    ensures o in EntryOccurrence(s.0)((i, s.1.entries[i])) <==> IdAt(s, i, o)
  {
    assert EntryPath(s.0, i, "id") == "content." + s.0 + ".entries[" + Decimal(i) + "].id";
    hide EntryPath;
  }

  /** The identifiers compared are those of all entries. */
  lemma EntryIdsFound(content: Content, o: Occurrence)
    ensures o in EntryOccurrences(content) <==> exists s <- content, i: nat :: i < |s.1.entries| && IdAt(s, i, o)
  {
    hide IdAt, EntryOccurrence;
    FlatMapMembers(content, SectionOccurrences(), o);
    forall s: (string, Section)
      ensures o in SectionOccurrences()(s) <==> exists i: nat :: i < |s.1.entries| && IdAt(s, i, o)
    {
      FlatIndexed(s.1.entries, EntryOccurrence(s.0), o);
      forall i: nat | i < |s.1.entries| { EntryIdMeans(s, i, o); }
    }
  }

  /** And every contact detail. */
  lemma DetailIdsFound(details: seq<Option<Detail>>, o: Occurrence)
    ensures o in DetailOccurrences(details) <==>
              exists i: nat ::
                && i < |details| && o.path == "personalDetails.details[" + Decimal(i) + "].id"
                && o.id == if details[i].None? || details[i].value.id.None? then "" else details[i].value.id.value
  {
    FlatIndexed(details, DetailOccurrence(), o);
  }

  /** The report is what the seven rules find, on the sections, the layout, the contact details and the photo. */
  lemma ReportMeans(lib: Library, doc: Document, issue: Issue)
    ensures issue in Validate(lib, doc) <==>
              || issue in FlatMap(doc.content, SectionLengths(lib))
              || issue in LayoutIssues(lib, Keys(doc.content), doc.main + doc.sidebar)
              || issue in FlatMap(doc.content, SectionDates(lib))
              || issue in DuplicateIssues(lib, DuplicateEntryId, EntryOccurrences(doc.content))
              || issue in FlatMap(Indexed(doc.details), DetailUrl(lib))
              || issue in DuplicateIssues(lib, DuplicateDetailId, DetailOccurrences(doc.details))
              || issue in PhotoIssues(lib, doc.photoKey)
    ensures forall i :: 0 <= i < |doc.content| ==> Keys(doc.content)[i] == doc.content[i].0
  {
    hide SectionLengths, LayoutIssues, SectionDates, DuplicateIssues, DetailUrl, PhotoIssues, FlatMap;
    hide EntryOccurrences, DetailOccurrences;
    forall i: nat | i < |doc.content| { MapAt(doc.content, KeyOf(), i); }
    ValidateSorts(lib, doc);
    hide Validate;
    assert issue in multiset(Validate(lib, doc)) <==> issue in multiset(AllIssues(lib, doc));
  }
}
