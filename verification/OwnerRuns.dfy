/** What one run does to its target after the create, and the final check of the account. */
module OwnerRuns {
  import opened Distinctness
  import opened Listings
  import opened Options
  import opened Revisions

  type Bytes = seq<bv8>

  const TARGET_TITLE := "CV tiếng Việt"

  datatype Crop = Crop(x: real, y: real, width: real, height: real) {
    predicate Valid() {
      0.0 <= x <= 1.0 && 0.0 <= y <= 1.0 && 0.0 < width <= 1.0 && 0.0 < height <= 1.0
    }
  }

  /** A document as it decodes: canonical bytes without the photo reference, and that reference. */
  datatype Document = Document(canonical: Bytes, photo: Option<PhotoMeta>)
  datatype PhotoMeta = PhotoMeta(crop: Option<Crop>)
  datatype Photo = Photo(contentType: string, data: Bytes)

  /** A resume read back; a document that does not decode is absent. */
  datatype ResumeState = ResumeState(summary: Summary, raw: Bytes, document: Option<Document>)

  datatype Snapshot = Snapshot(
    handle: string, state: ResumeState, canonical: Bytes, crop: Option<Crop>, photo: Option<Photo>)

  /** The photo reference of a private Vietnamese target whose document is exactly the payload. */
  function ValidTarget(state: ResumeState, payload: Bytes): Option<Option<PhotoMeta>> {
    var item := state.summary;
    if item.lng != TARGET_LANGUAGE || item.title != TARGET_TITLE || item.live || item.slug.Some? then None
    else if state.document.None? || state.document.value.canonical != payload then None
    else Some(state.document.value.photo)
  }

  /** Exactly which targets are taken: everything a reader of the resume would notice is checked. */
  lemma TargetIsExact(state: ResumeState, payload: Bytes)
    ensures ValidTarget(state, payload).Some? <==>
              && state.summary.lng == "vi" && state.summary.title == "CV tiếng Việt"
              && !state.summary.live && state.summary.slug == None
              && exists photo :: state.document == Some(Document(payload, photo))
    ensures ValidTarget(state, payload).Some? ==>
              state.document == Some(Document(payload, ValidTarget(state, payload).value))
  {
    if state.document.Some? {
      assert state.document.value == Document(state.document.value.canonical, state.document.value.photo);
    }
  }

  /** A target write's answer: none, a closed error code, or an output. */
  datatype Answer = NoAnswer | ErrorCode(conflict: bool) | Written(revision: string, state: ResumeState)

  /** The visual comparison of two photos, whose pixel part is the caller's. */
  predicate PhotoParity(source: Photo, sourceCrop: Option<Crop>, target: Photo, targetCrop: Option<Crop>,
          pixels: bool)
  {
    && source.contentType == target.contentType && sourceCrop == targetCrop
    && (sourceCrop.Some? ==> sourceCrop.value.Valid()) && pixels
  }

  /** The answers that one photo copy may meet, in the order in which it asks. */
  datatype CopyAnswers = CopyAnswers(
    first: Option<ResumeState>, upload: Answer, uploadRead: Option<ResumeState>, second: Option<ResumeState>,
    targetPhoto: Option<Photo>, pixels: bool, crop: Answer, cropRead: Option<ResumeState>)

  /** The answers that the final check may meet. */
  datatype FinalAnswers = FinalAnswers(
    listing: Option<seq<Summary>>, source: Option<Snapshot>, state: Option<ResumeState>,
    targetPhoto: Option<Photo>, pixels: bool, date: Option<int>)

  /** A listed item is this private Vietnamese resume at this revision. */
  predicate IsTarget(t: Summary, target: string, revision: string) {
    t.id == target && t.lng == TARGET_LANGUAGE && !t.live && t.revision == revision
  }

  /** The listing is the baseline, unchanged, and exactly one more resume: the private target at this revision. */
  ghost predicate PinsAccount(listing: seq<Summary>, baseline: seq<Summary>, target: string, revision: string) {
    && DistinctListing(listing)
    && exists t: Summary :: IsTarget(t, target, revision) && multiset(listing) == multiset(baseline) + multiset{t}
  }

  class OwnerRun {
    const payload: Bytes
    const source: Snapshot
    const baseline: seq<Summary>
    const target: string
    var revision: string

    constructor (payload: Bytes, source: Snapshot, baseline: seq<Summary>, target: string, revision: string)
      ensures this.payload == payload && this.source == source && this.baseline == baseline
      ensures this.target == target && this.revision == revision
    {
      this.payload, this.source, this.baseline := payload, source, baseline;
      this.target, this.revision := target, revision;
    }

    /** The answer itself shows the write at the next revision. */
    predicate Direct(at: string, answer: Answer) {
      answer.Written? && answer.state.summary.id == target && NextDecimalRevision(at, answer.revision)
    }

    /** The answer is unclear, and the read shows the write done, at the next revision, with nothing else changed. */
    predicate Reconciles(at: string, answer: Answer, read: Option<ResumeState>, crop: bool) {
      && !(answer.ErrorCode? && !answer.conflict)
      && read.Some? && ValidTarget(read.value, payload).Some?
      && NextDecimalRevision(at, read.value.summary.revision)
      && ValidTarget(read.value, payload).value.Some?
      && (crop ==> ValidTarget(read.value, payload).value.value.crop == source.crop)
    }

    /** The revision after a write that was sent at this one. */
    function RevisionAfter(at: string, answer: Answer, read: Option<ResumeState>, crop: bool): string {
      if Direct(at, answer) then answer.revision
      else if Reconciles(at, answer, read, crop) then read.value.summary.revision
      else at
    }

    /** A write succeeds: shown by its answer, which for a crop holds the exact target, or reconciled. */
    predicate Writes(at: string, answer: Answer, read: Option<ResumeState>, crop: bool) {
      if Direct(at, answer) then crop ==> ValidTarget(answer.state, payload).Some?
      else Reconciles(at, answer, read, crop)
    }

    /**
     When a write counts as done. Its own answer shows it on the target at the next revision, and for a crop holds the
     exact target; or the answer is lost or a conflict, and the target that is read is exact, at the next revision,
     with a photo, and for a crop under the source's crop. Any other error code is final.
     */
    lemma WriteMeans(at: string, answer: Answer, read: Option<ResumeState>, crop: bool)
      ensures var direct := answer.Written? && answer.state.summary.id == target
                            && NextDecimalRevision(at, answer.revision);
              Writes(at, answer, read, crop) <==>
                if direct then crop ==> ValidTarget(answer.state, payload).Some?
                else
                  && answer != ErrorCode(false) && read.Some?
                  && NextDecimalRevision(at, read.value.summary.revision)
                  && match ValidTarget(read.value, payload)
                     case Some(Some(photo)) => crop ==> photo.crop == source.crop
                     case _ => false
      ensures Writes(at, answer, read, crop) ==>
                RevisionAfter(at, answer, read, crop)
                == if answer.Written? && answer.state.summary.id == target && NextDecimalRevision(at, answer.revision)
                   then answer.revision else read.value.summary.revision
    {
    }

    /** A write without a clear answer is settled by one read, which must show it done and nothing else. */
    method ReconcileTargetWrite(answer: Answer, read: Option<ResumeState>, crop: bool) returns (ok: bool)
      modifies this`revision
      ensures ok <==> Reconciles(old(revision), answer, read, crop)
      ensures revision == if ok then read.value.summary.revision else old(revision)
      ensures ok && read.Some? ==>
                && read.value.summary.lng == "vi" && read.value.summary.title == "CV tiếng Việt"
                && !read.value.summary.live && read.value.summary.slug.None?
                && read.value.document.Some? && read.value.document.value.canonical == payload
                && read.value.document.value.photo.Some?
                && (crop ==> read.value.document.value.photo.value.crop == source.crop)
                && NextDecimalRevision(old(revision), read.value.summary.revision)
    {
      if read.Some? { TargetIsExact(read.value, payload); }
      if answer.ErrorCode? && !answer.conflict { return false; }
      if read.None? { return false; }
      var exact := ValidTarget(read.value, payload);
      if exact.None? || !NextDecimalRevision(revision, read.value.summary.revision) { return false; }
      var applied := exact.value.Some? && (crop ==> source.crop == exact.value.value.crop);
      if !applied { return false; }
      revision := read.value.summary.revision;
      return true;
    }

    /** One photo write advances the revision by exactly one, however its answer came about. */
    method TargetWrite(answer: Answer, read: Option<ResumeState>, crop: bool) returns (ok: bool)
      modifies this`revision
      ensures ok <==> Writes(old(revision), answer, read, crop)
      ensures revision == RevisionAfter(old(revision), answer, read, crop)
      ensures ok ==> NextDecimalRevision(old(revision), revision)
      ensures !ok ==> revision == old(revision) || (crop && NextDecimalRevision(old(revision), revision))
      ensures ok && crop ==>
                var state := if Direct(old(revision), answer) then answer.state else read.value;
                state.document.Some? && state.document.value.canonical == payload
    {
      if answer.Written? && answer.state.summary.id == target && NextDecimalRevision(revision, answer.revision) {
        revision := answer.revision;
        ok := crop ==> ValidTarget(answer.state, payload).Some?;
      } else {
        ok := ReconcileTargetWrite(answer, read, crop);
      }
    }

    /** The photo reference that a copy starts from: there already, or uploaded and read back. */
    function PhotoToCrop(at: string, a: CopyAnswers): Option<PhotoMeta>
      requires a.first.Some? && ValidTarget(a.first.value, payload).Some?
    {
      var before := ValidTarget(a.first.value, payload).value;
      if before.Some? then before
      else if Writes(at, a.upload, a.uploadRead, false) && a.second.Some?
              && a.second.value.summary.revision == RevisionAfter(at, a.upload, a.uploadRead, false)
              && ValidTarget(a.second.value, payload).Some?
      then ValidTarget(a.second.value, payload).value
      else None
    }

    /** Whether the crop need not, or need and does, get written. */
    predicate CropFits(at: string, a: CopyAnswers, crop: Option<Crop>) {
      source.crop == crop || (crop.None? && Writes(at, a.crop, a.cropRead, true))
    }

    /** The copy succeeds: nothing to copy and nothing there, or the same photo, under the same crop in the end. */
    predicate Copies(at: string, a: CopyAnswers) {
      && a.first.Some? && a.first.value.summary.revision == at && ValidTarget(a.first.value, payload).Some?
      && if source.photo.None? then ValidTarget(a.first.value, payload).value.None?
         else
           var uploads := ValidTarget(a.first.value, payload).value.None?;
           var photo := PhotoToCrop(at, a);
           && photo.Some? && a.targetPhoto.Some?
           && PhotoParity(source.photo.value, None, a.targetPhoto.value, None, a.pixels)
           && CropFits(if uploads then RevisionAfter(at, a.upload, a.uploadRead, false) else at, a, photo.value.crop)
    }

    /**
     When a copy succeeds. The target is read exactly, at the reached revision. Without a source photo it must have
     none. Otherwise a photo is there, or is uploaded and then read back exactly at the next revision; it looks like the
     source's; and its crop is the source's, or it has none yet and the crop is written.
     */
    lemma CopyMeans(at: string, a: CopyAnswers)
      requires a.first.Some? && ValidTarget(a.first.value, payload).Some?
      ensures var before := ValidTarget(a.first.value, payload).value;
              var next := if before.Some? then at else RevisionAfter(at, a.upload, a.uploadRead, false);
              var shown := if before.Some? then a.first else a.second;
              Copies(at, a) <==>
                && a.first.value.summary.revision == at
                && if source.photo.None? then before.None?
                   else
                     && (before.Some? || Writes(at, a.upload, a.uploadRead, false))
                     && a.targetPhoto.Some? && a.targetPhoto.value.contentType == source.photo.value.contentType
                     && a.pixels
                     && shown.Some? && shown.value.summary.revision == next
                     && match ValidTarget(shown.value, payload)
                        case Some(Some(photo)) =>
                          photo.crop == source.crop || (photo.crop.None? && Writes(next, a.crop, a.cropRead, true))
                        case _ => false
    {
      hide Writes, RevisionAfter, ValidTarget;
    }

    /** Copies photo and crop where they are missing. Each write is one revision; nothing else moves it. */
    method CopyPhoto(a: CopyAnswers) returns (ok: bool, writes: nat)
      modifies this`revision
      ensures ok <==> Copies(old(revision), a)
      ensures ok && source.photo.None? ==> writes == 0
      ensures ok && source.photo.Some? ==>
                var before := ValidTarget(a.first.value, payload).value;
                writes == (if before.Some? then 0 else 1)
                          + (if PhotoToCrop(old(revision), a).value.crop == source.crop then 0 else 1)
      ensures writes <= 2 && Reached(old(revision), revision, writes)
    {
      hide PhotoParity, NextDecimalRevision;
      if a.first.None? || a.first.value.summary.revision != revision { return false, 0; }
      var exact := ValidTarget(a.first.value, payload);
      if exact.None? { return false, 0; }
      if source.photo.None? { return exact.value.None?, 0; }
      var photo := exact.value;
      writes := 0;
      if photo.None? {
        var start := revision;
        photo := UploadPhoto(a.upload, a.uploadRead, a.second);
        if revision != start {
          writes := 1;
          ReachedNext(old(revision), old(revision), revision, 0);
        }
        if photo.None? { return false, writes; }
      }
      if a.targetPhoto.None? { return false, writes; }
      if !PhotoParity(source.photo.value, None, a.targetPhoto.value, None, a.pixels) { return false, writes; }
      if source.crop == photo.value.crop { return true, writes; }
      if photo.value.crop.Some? { return false, writes; }
      ghost var before := revision;
      var advanced;
      ok, advanced := CropPhoto(a.crop, a.cropRead);
      if advanced {
        ReachedNext(old(revision), before, revision, writes);
        writes := writes + 1;
      }
    }

    /** The upload and the read that must show it, at the revision it reached. */
    method UploadPhoto(answer: Answer, read: Option<ResumeState>, second: Option<ResumeState>)
      returns (photo: Option<PhotoMeta>)
      modifies this`revision
      ensures revision == RevisionAfter(old(revision), answer, read, false)
      ensures revision == old(revision) || NextDecimalRevision(old(revision), revision)
      ensures photo == if Writes(old(revision), answer, read, false) && second.Some?
                          && second.value.summary.revision == revision && ValidTarget(second.value, payload).Some?
                       then ValidTarget(second.value, payload).value else None
      ensures photo.Some? ==> revision != old(revision)
    {
      var uploaded := TargetWrite(answer, read, false);
      if !uploaded { return None; }
      assert !NextDecimalRevision(revision, revision);
      if second.None? || second.value.summary.revision != revision { return None; }
      var exact := ValidTarget(second.value, payload);
      return if exact.None? then None else exact.value;
    }

    method CropPhoto(answer: Answer, read: Option<ResumeState>) returns (ok: bool, advanced: bool)
      modifies this`revision
      ensures ok <==> Writes(old(revision), answer, read, true)
      ensures ok ==> advanced
      ensures advanced ==> NextDecimalRevision(old(revision), revision)
      ensures !advanced ==> revision == old(revision)
    {
      var before := revision;
      ok := TargetWrite(answer, read, true);
      advanced := revision != before;
    }

    /** The target that is read at the end: exact, with the source's photo and crop, or without any photo. */
    predicate TargetConfirms(a: FinalAnswers)
    {
      && a.state.Some? && ValidTarget(a.state.value, payload).Some?
      && var photo := ValidTarget(a.state.value, payload).value;
         if source.photo.None? then photo.None?
         else
           && photo.Some? && a.targetPhoto.Some?
           && PhotoParity(source.photo.value, source.crop, a.targetPhoto.value, photo.value.crop, a.pixels)
    }

    /** Everything that the final check reads agrees. */
    ghost predicate Confirms(at: string, a: FinalAnswers) {
      && a.listing.Some? && PinsAccount(a.listing.value, baseline, target, at)
      && a.source == Some(source)
      && TargetConfirms(a) && a.state.value.summary.revision == at
      && a.date.Some?
    }

    /** All of it spelled out, over what was read. */
    lemma ConfirmsExactly(at: string, a: FinalAnswers)
      requires a.listing.Some? && a.state.Some? && a.state.value.document.Some?
      ensures var listing, read, document := a.listing.value, a.state.value.summary, a.state.value.document.value;
              Confirms(at, a) <==>
                // The account: the baseline as it was, and one new resume.
                && (forall i, j :: 0 <= i < j < |listing| ==> listing[i].id != listing[j].id)
                && (exists t: Summary :: t.id == target && t.lng == "vi" && !t.live && t.revision == at
                                && multiset(listing) == multiset(baseline) + multiset{t})
                // The source, and the target itself.
                && a.source == Some(source) && a.date.Some?
                && read.lng == "vi" && read.title == "CV tiếng Việt" && !read.live && read.slug.None?
                && read.revision == at && document.canonical == payload
                && if source.photo.None? then document.photo.None?
                   else
                     && document.photo == Some(PhotoMeta(source.crop)) && a.targetPhoto.Some? && a.pixels
                     && a.targetPhoto.value.contentType == source.photo.value.contentType
                     && (source.crop.Some? ==>
                           var crop := source.crop.value;
                           && 0.0 <= crop.x <= 1.0 && 0.0 <= crop.y <= 1.0
                           && 0.0 < crop.width <= 1.0 && 0.0 < crop.height <= 1.0)
    {
      TargetIsExact(a.state.value, payload);
      var listing := a.listing.value;
      assert DistinctListing(listing) <==> forall i, j :: 0 <= i < j < |listing| ==> listing[i].id != listing[j].id by {
        assert forall i :: 0 <= i < |listing| ==> Ids(listing)[i] == listing[i].id;
      }
      forall t: Summary
        ensures IsTarget(t, target, at) <==> t.id == target && t.lng == "vi" && !t.live && t.revision == at
      {
      }
    }

    /** One new private Vietnamese target at the reached revision, and everything else as it was. */
    method VerifyFinal(a: FinalAnswers) returns (confirmedAt: Option<int>)
      ensures confirmedAt.Some? <==> Confirms(revision, a)
      ensures confirmedAt.Some? ==> confirmedAt == a.date
      // What this says of the target that was read.
      ensures confirmedAt.Some? ==> a.state.Some? && a.state.value.summary.revision == revision
      ensures confirmedAt.Some? && a.state.Some? ==>
                && a.state.value.summary.lng == "vi" && a.state.value.summary.title == "CV tiếng Việt"
                && !a.state.value.summary.live && a.state.value.summary.slug.None?
                && a.state.value.document.Some? && a.state.value.document.value.canonical == payload
                && (source.photo.None? ==> a.state.value.document.value.photo.None?)
                && (source.photo.Some? ==> a.state.value.document.value.photo == Some(PhotoMeta(source.crop)))
    {
      if a.state.Some? { TargetIsExact(a.state.value, payload); }
      if a.listing.None? { return None; }
      var pinned := CheckListing(a.listing.value);
      if !pinned { return None; }
      if a.source != Some(source) { return None; }
      if a.state.None? || a.state.value.summary.revision != revision { return None; }
      var exact := ValidTarget(a.state.value, payload);
      if exact.None? { return None; }
      var photo := exact.value;
      if source.photo.None? {
        if photo.Some? { return None; }
      } else {
        if photo.None? || a.targetPhoto.None? { return None; }
        if !PhotoParity(source.photo.value, source.crop, a.targetPhoto.value, photo.value.crop, a.pixels) {
          return None;
        }
      }
      return a.date;
    }

    /** Length, distinct identifiers and a comparison of the others decide the whole account. */
    method CheckListing(listing: seq<Summary>) returns (ok: bool)
      ensures ok <==> PinsAccount(listing, baseline, target, revision)
    {
      if |listing| != |baseline| + 1 {
        PinnedLength(listing, baseline, target, revision);
        return false;
      }
      var distinct := DistinctIds(listing);
      if !distinct { return false; }
      var others: seq<Summary> := [];
      for i := 0 to |listing|
        invariant others == Select(listing[..i], {target}, false)
        invariant forall item <- listing[..i] :: item.id == target ==> IsTarget(item, target, revision)
      {
        assert listing[..i + 1][..i] == listing[..i];
        if listing[i].id == target {
          if listing[i].lng != TARGET_LANGUAGE || listing[i].live || listing[i].revision != revision {
            PinnedTarget(listing, baseline, target, revision, listing[i]);
            return false;
          }
        } else {
          others := others + [listing[i]];
        }
      }
      assert listing[..|listing|] == listing;
      ok := SameListing(baseline, others);
      OthersDecide(listing, baseline, target, revision);
    }

    /** The end of a run: the account is pinned at the revision that the writes reached, one step each. */
    method CopyAndVerify(copy: CopyAnswers, final: FinalAnswers) returns (confirmedAt: Option<int>, writes: nat)
      modifies this`revision
      ensures confirmedAt.Some? <==> Copies(old(revision), copy) && Confirms(revision, final)
      ensures confirmedAt.Some? ==> confirmedAt == final.date
      ensures confirmedAt.Some? ==> final.state.Some? && final.state.value.summary.revision == revision
      ensures confirmedAt.Some? && final.state.Some? ==>
                && final.state.value.summary.lng == "vi" && final.state.value.summary.title == "CV tiếng Việt"
                && !final.state.value.summary.live && final.state.value.summary.slug.None?
                && final.state.value.document.Some? && final.state.value.document.value.canonical == payload
                && (source.photo.None? ==> final.state.value.document.value.photo.None?)
                && (source.photo.Some? ==> final.state.value.document.value.photo == Some(PhotoMeta(source.crop)))
      ensures writes <= 2 && Reached(old(revision), revision, writes)
    {
      var ok;
      ok, writes := CopyPhoto(copy);
      if !ok { return None, writes; }
      confirmedAt := VerifyFinal(final);
    }
  }

  // ---------------------------------------------------------------- counting arguments

  lemma PinnedLength(listing: seq<Summary>, baseline: seq<Summary>, target: string, revision: string)
    ensures PinsAccount(listing, baseline, target, revision) ==> |listing| == |baseline| + 1
  {
    if PinsAccount(listing, baseline, target, revision) {
      var t :| multiset(listing) == multiset(baseline) + multiset{t};
      assert |multiset(listing)| == |listing| && |multiset(baseline)| == |baseline|;
    }
  }

  /** Nothing else in a pinned listing can carry the target's identifier. */
  lemma PinnedTarget(listing: seq<Summary>, baseline: seq<Summary>, target: string, revision: string, item: Summary)
    requires item in listing && item.id == target
    ensures PinsAccount(listing, baseline, target, revision) ==> IsTarget(item, target, revision)
  {
    if PinsAccount(listing, baseline, target, revision) {
      var t: Summary :| IsTarget(t, target, revision) && multiset(listing) == multiset(baseline) + multiset{t};
      assert t in multiset(listing);
      var i :| 0 <= i < |listing| && listing[i] == item;
      var j :| 0 <= j < |listing| && listing[j] == t;
      assert Ids(listing)[i] == Ids(listing)[j];
    }
  }

  lemma AtMostOneTarget(listing: seq<Summary>, target: string)
    requires DistinctListing(listing)
    ensures |Select(listing, {target}, true)| <= 1
  {
    SelectedIds(listing, {target});
    SubsetSize(Elements(Ids(listing)) * {target}, {target});
  }

  /** When the lengths agree, comparing the others to the baseline decides the whole listing. */
  lemma OthersDecide(listing: seq<Summary>, baseline: seq<Summary>, target: string, revision: string)
    requires DistinctListing(listing) && |listing| == |baseline| + 1
    requires forall item <- listing :: item.id == target ==> IsTarget(item, target, revision)
    ensures var others := Select(listing, {target}, false);
            DistinctListing(others)
            && (PinsAccount(listing, baseline, target, revision)
                <==> DistinctListing(baseline) && multiset(baseline) == multiset(others))
  {
    SelectDistinct(listing, {target}, false);
    if DistinctListing(baseline) && multiset(baseline) == multiset(Select(listing, {target}, false)) {
      OthersPin(listing, baseline, target, revision);
    }
    if PinsAccount(listing, baseline, target, revision) {
      PinnedOthers(listing, baseline, target, revision);
    }
  }

  lemma OthersPin(listing: seq<Summary>, baseline: seq<Summary>, target: string, revision: string)
    requires DistinctListing(listing) && |listing| == |baseline| + 1
    requires forall item <- listing :: item.id == target ==> IsTarget(item, target, revision)
    requires multiset(baseline) == multiset(Select(listing, {target}, false))
    ensures PinsAccount(listing, baseline, target, revision)
  {
    hide Select;
    var others, found := Select(listing, {target}, false), Select(listing, {target}, true);
    SelectSizes(listing, {target});
    SelectMembers(listing, {target}, true);
    assert |multiset(baseline)| == |baseline| && |multiset(others)| == |others|;
    assert found[0] in listing;
    SelectPartitions(listing, {target});
    OneMore(multiset(listing), multiset(baseline), found, multiset(others), found[0]);
  }

  /** Taking one known element out of both sides. */
  lemma OneMore<T>(all: multiset<T>, base: multiset<T>, found: seq<T>, others: multiset<T>, t: T)
    requires |found| == 1 && found[0] == t && all == multiset(found) + others
    ensures all == base + multiset{t} <==> base == others
  {
    assert found == [t];
    if all == base + multiset{t} {
      assert base == all - multiset{t} == others;
    }
  }

  lemma SelectSizes(listing: seq<Summary>, expected: set<string>)
    ensures |listing| == |Select(listing, expected, true)| + |Select(listing, expected, false)|
  {
    var kept, dropped := Select(listing, expected, true), Select(listing, expected, false);
    SelectPartitions(listing, expected);
    assert |multiset(listing)| == |listing| && |multiset(kept)| == |kept| && |multiset(dropped)| == |dropped|;
  }

  lemma PinnedOthers(listing: seq<Summary>, baseline: seq<Summary>, target: string, revision: string)
    requires PinsAccount(listing, baseline, target, revision)
    ensures DistinctListing(baseline) && multiset(baseline) == multiset(Select(listing, {target}, false))
  {
    var others, found := Select(listing, {target}, false), Select(listing, {target}, true);
    var t: Summary :| IsTarget(t, target, revision) && multiset(listing) == multiset(baseline) + multiset{t};
    assert |found| == 1 && found[0] == t by {
      AtMostOneTarget(listing, target);
      assert t in multiset(listing);
      SelectKeeps(listing, {target}, t);
    }
    SelectPartitions(listing, {target});
    OneMore(multiset(listing), multiset(baseline), found, multiset(others), t);
    assert DistinctListing(others) by { SelectDistinct(listing, {target}, false); }
    PermutationDistinct(others, baseline);
  }

  lemma PermutationDistinct(a: seq<Summary>, b: seq<Summary>)
    requires DistinctListing(a) && multiset(a) == multiset(b)
    ensures DistinctListing(b)
  {
    DistinctIdsNoRepeats(a);
    CountElements(a);
    forall i, j | 0 <= i < j < |b| ensures Ids(b)[i] != Ids(b)[j] {
      assert b[i] in multiset(a) && b[j] in multiset(a);
      var p :| 0 <= p < |a| && a[p] == b[i];
      var q :| 0 <= q < |a| && a[q] == b[j];
      if p == q {
        RepeatCounts(b, i, j);
        assert false;
      }
      assert Ids(a)[p] != Ids(a)[q];
    }
  }

  lemma RepeatCounts<T>(s: seq<T>, i: int, j: int)
    requires 0 <= i < j < |s| && s[i] == s[j]
    ensures multiset(s)[s[i]] >= 2
  {
    assert s == s[..i] + [s[i]] + s[i + 1..j] + [s[j]] + s[j + 1..];
  }
}
