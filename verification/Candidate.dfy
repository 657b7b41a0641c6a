/** The check that a candidate document differs from its source only by translation. */
module Candidate {
  import opened Distinctness
  import opened Options
  import opened RichText

  /** Decoded JSON. Numbers keep their text; an object is a map, with no order among its keys. */
  datatype Json =
    | Null
    | Bool(truth: bool)
    | Number(digits: string)
    | String(text: string)
    | Array(items: seq<Json>)
    | Object(members: map<string, Json>)

  datatype TextKind = ProtectedValue | PlainText | RichValue

  type Path = seq<string>

  /** The translatable fields of an entry, by the type of its section. */
  function EntryField(sectionType: string, field: string): TextKind {
    match sectionType
    case "profile" => if field == "text" then RichValue else ProtectedValue
    case "work" =>
      if field == "jobTitle" then PlainText else if field == "description" then RichValue else ProtectedValue
    case "education" => if field == "description" then RichValue else ProtectedValue
    case "skill" => if field == "infoHtml" then RichValue else ProtectedValue
    case "certificate" => if field == "description" then RichValue else ProtectedValue
    case "project" =>
      if field == "subtitle" then PlainText else if field == "description" then RichValue else ProtectedValue
    case "custom" =>
      if field == "subtitle" then PlainText else if field == "description" then RichValue else ProtectedValue
    case _ => ProtectedValue
  }

  function PathKind(path: Path, sectionType: string): TextKind {
    if |path| == 2 && path[0] == "personalDetails" && path[1] == "headline" then PlainText
    else if |path| == 4 && path[0] == "personalDetails" && path[1] == "details" && path[2] == "[]" then
      if path[3] == "label" then PlainText else ProtectedValue
    else if |path| == 3 && path[0] == "content" && path[2] == "displayName" then PlainText
    else if |path| == 5 && path[0] == "content" && path[2] == "entries" && path[3] == "[]" then
      EntryField(sectionType, path[4])
    else ProtectedValue
  }

  predicate IsSection(path: Path) { |path| == 2 && path[0] == "content" }

  /** The declared type of a section object, when it is a text. */
  function Declared(members: map<string, Json>): Option<string> {
    if "sectionType" in members && members["sectionType"].String? then Some(members["sectionType"].text) else None
  }

  predicate HasMarkup(s: string) { exists c <- s :: c == '<' || c == '>' }

  ghost predicate SamePlainText(u: Library, old': string, new': string) {
    Blank(u, old') == Blank(u, new') && SameRuns(u, old', new') && !HasMarkup(new')
  }

  // ---------------------------------------------------------------- the recursive comparison

  ghost predicate SameText(u: Library, kind: TextKind, old': string, new': string) {
    match kind
    case PlainText => SamePlainText(u, old', new')
    case RichValue => SameRichText(u, old', new')
    case ProtectedValue => old' == new'
  }

  /** Whether the candidate is accepted, over all keys of an object at once. */
  ghost predicate Preserved(u: Library, path: Path, sectionType: string, old': Json, new': Json)
    decreases old'
  {
    match old'
    case Object(members) =>
      && new'.Object? && |members| == |new'.members|
      && (IsSection(path) ==> Declared(members).Some?)
      && var inner := if IsSection(path) then Declared(members).value else sectionType;
         forall key <- members ::
           key in new'.members && Preserved(u, path + [key], inner, members[key], new'.members[key])
    case Array(items) =>
      && new'.Array? && |items| == |new'.items|
      && forall i :: 0 <= i < |items| ==> Preserved(u, path + ["[]"], sectionType, items[i], new'.items[i])
    case String(text) => new'.String? && SameText(u, PathKind(path, sectionType), text, new'.text)
    case _ => new' == old'
  }

  /**
   The comparison as it runs: an object's keys are visited in an arbitrary order, stopping at the first
   difference. The verdict is the one above whatever that order is.
   */
  method ComparePreserved(u: Library, path: Path, sectionType: string, old': Json, new': Json) returns (ok: bool)
    ensures ok <==> Preserved(u, path, sectionType, old', new')
    decreases old', 1
  {
    match old'
    case Object(members) =>
      if !new'.Object? || |members| != |new'.members| { return false; }
      var inner := sectionType;
      if IsSection(path) {
        var declared := Declared(members);
        if declared.None? { return false; }
        inner := declared.value;
      }
      ok := CompareMembers(u, path, inner, old', new');
    case Array(items) =>
      if !new'.Array? || |items| != |new'.items| { return false; }
      for i := 0 to |items|
        invariant forall k :: 0 <= k < i ==> Preserved(u, path + ["[]"], sectionType, items[k], new'.items[k])
      {
        var same := ComparePreserved(u, path + ["[]"], sectionType, items[i], new'.items[i]);
        if !same { return false; }
      }
      ok := true;
    case String(text) =>
      if !new'.String? { return false; }
      ok := CompareText(u, PathKind(path, sectionType), text, new'.text);
    case _ =>
      ok := new' == old';
  }

  method CompareMembers(u: Library, path: Path, inner: string, old': Json, new': Json) returns (ok: bool)
    requires old'.Object? && new'.Object?
    ensures ok <==> forall key <- old'.members ::
                      key in new'.members && Preserved(u, path + [key], inner, old'.members[key], new'.members[key])
    decreases old', 0
  {
    var remaining := old'.members.Keys;
    while remaining != {}
      invariant remaining <= old'.members.Keys
      invariant forall key <- old'.members.Keys - remaining ::
                  key in new'.members && Preserved(u, path + [key], inner, old'.members[key], new'.members[key])
      decreases |remaining|
    {
      var key :| key in remaining;
      remaining := remaining - {key};
      if key !in new'.members { return false; }
      var same := ComparePreserved(u, path + [key], inner, old'.members[key], new'.members[key]);
      if !same { return false; }
    }
    return true;
  }

  method CompareText(u: Library, kind: TextKind, old': string, new': string) returns (ok: bool)
    ensures ok <==> SameText(u, kind, old', new')
  {
    match kind
    case PlainText =>
      ok := SameDigitRuns(u, old', new');
      ok := ok && Blank(u, old') == Blank(u, new') && !HasMarkup(new');
    case RichValue => ok := SameRichText(u, old', new');
    case ProtectedValue => ok := old' == new';
  }

  // ---------------------------------------------------------------- the mask

  /** What translation must keep of one document: each text reduced to what its kind protects. */
  datatype Masked =
    | Exact(value: Json)
    | MaskedPlain(blank: bool, runs: multiset<string>)
    | MaskedRich(shapes: seq<Shape>, runs: multiset<string>)
    | Unparsed
    | MaskedArray(items: seq<Masked>)
    | MaskedObject(members: map<string, Masked>)

  ghost function MaskText(u: Library, kind: TextKind, text: string): Masked {
    match kind
    case PlainText => MaskedPlain(Blank(u, text), multiset(DigitRuns(u, text)))
    case RichValue =>
      var nodes := u.parse(text);
      if nodes.None? then Unparsed else MaskedRich(Shapes(u, nodes.value), multiset(AllRuns(u, nodes.value)))
    case ProtectedValue => Exact(String(text))
  }

  /** The section type that a document gives to what lies below `path`. */
  function Inner(path: Path, sectionType: string, members: map<string, Json>): string {
    if IsSection(path) && Declared(members).Some? then Declared(members).value else sectionType
  }

  ghost function Mask(u: Library, path: Path, sectionType: string, json: Json): Masked
    decreases json
  {
    match json
    case Object(members) =>
      MaskedObject(map key <- members :: Mask(u, path + [key], Inner(path, sectionType, members), members[key]))
    case Array(items) =>
      MaskedArray(seq(|items|, i requires 0 <= i < |items| => Mask(u, path + ["[]"], sectionType, items[i])))
    case String(text) => MaskText(u, PathKind(path, sectionType), text)
    case _ => Exact(json)
  }

  /** What the source document must satisfy: every section says its type, and rich text can be read to the bottom. */
  ghost predicate Comparable(u: Library, path: Path, sectionType: string, json: Json)
    decreases json
  {
    match json
    case Object(members) =>
      && (IsSection(path) ==> Declared(members).Some?)
      && forall key <- members :: Comparable(u, path + [key], Inner(path, sectionType, members), members[key])
    case Array(items) => forall i :: 0 <= i < |items| ==> Comparable(u, path + ["[]"], sectionType, items[i])
    case String(text) => PathKind(path, sectionType).RichValue? ==> Readable(u, text)
    case _ => true
  }

  /** What the candidate must satisfy: plain texts carry no markup. */
  ghost predicate MarkupFree(u: Library, path: Path, sectionType: string, json: Json)
    decreases json
  {
    match json
    case Object(members) =>
        forall key <- members :: MarkupFree(u, path + [key], Inner(path, sectionType, members), members[key])
    case Array(items) => forall i :: 0 <= i < |items| ==> MarkupFree(u, path + ["[]"], sectionType, items[i])
    case String(text) => PathKind(path, sectionType).PlainText? ==> !HasMarkup(text)
    case _ => true
  }

  lemma SameTextMeaning(u: Library, kind: TextKind, old': string, new': string)
    requires u.Valid()
    ensures SameText(u, kind, old', new')
            <==> && MaskText(u, kind, old') == MaskText(u, kind, new')
                 && (kind.RichValue? ==> Readable(u, old')) && (kind.PlainText? ==> !HasMarkup(new'))
  {
    if kind.RichValue? {
      SameRichTextMeaning(u, old', new');
    }
  }

  /** A section's type is itself protected, so equal masks give equal types. */
  lemma SectionTypeProtected(u: Library, path: Path, sectionType: string, a: map<string, Json>, b: map<string, Json>)
    requires IsSection(path)
    requires "sectionType" in a ==> "sectionType" in b
    requires "sectionType" in a ==>
               Mask(u, path + ["sectionType"], Inner(path, sectionType, a), a["sectionType"])
               == Mask(u, path + ["sectionType"], Inner(path, sectionType, b), b["sectionType"])
    ensures Declared(a).Some? ==> Declared(b) == Declared(a)
  {
    if Declared(a).Some? {
      SectionTypePath(path, Inner(path, sectionType, a));
      SectionTypePath(path, Inner(path, sectionType, b));
    }
  }

  lemma SectionTypePath(path: Path, sectionType: string)
    requires IsSection(path)
    ensures PathKind(path + ["sectionType"], sectionType).ProtectedValue?
  {
    assert (path + ["sectionType"])[2] == "sectionType";
    assert "sectionType"[0] != "displayName"[0];
  }

  lemma SameKeys(a: map<string, Json>, b: map<string, Json>)
    requires |a| == |b| && forall key <- a :: key in b
    ensures a.Keys == b.Keys
  {
    assert |a| == |a.Keys| && |b| == |b.Keys|;
    LargeSubsetIsAll(a.Keys, b.Keys);
  }

  /** Accepting a section carries its declared type over, so both documents are read by the same table. */
  lemma SectionTypeKept(u: Library, path: Path, sectionType: string, a: Json, b: Json)
    requires a.Object? && Preserved(u, path, sectionType, a, b)
    ensures Inner(path, sectionType, a.members) == Inner(path, sectionType, b.members)
  {
    if IsSection(path) {
      SectionTypePath(path, Declared(a.members).value);
      assert "sectionType" in a.members;
    }
  }

  /**
   The recursion decides the mask: a candidate is accepted exactly when both documents have the same mask,
   the source can be compared, and the candidate's plain texts carry no markup.
   */
  lemma {:induction false} PreservedMeaning(u: Library, path: Path, sectionType: string, old': Json, new': Json)
    requires u.Valid()
    ensures Preserved(u, path, sectionType, old', new')
            <==> && Mask(u, path, sectionType, old') == Mask(u, path, sectionType, new')
                 && Comparable(u, path, sectionType, old') && MarkupFree(u, path, sectionType, new')
    decreases old'
  {
    match old'
    case Object(members) =>
      if new'.Object? { MembersMeaning(u, path, sectionType, old', new'); }
    case Array(items) =>
      if new'.Array? { ItemsMeaning(u, path, sectionType, old', new'); }
    case String(text) =>
      if new'.String? { SameTextMeaning(u, PathKind(path, sectionType), text, new'.text); }
    case _ =>
  }

  lemma {:induction false} ItemsMeaning(u: Library, path: Path, sectionType: string, old': Json, new': Json)
    requires u.Valid() && old'.Array? && new'.Array?
    ensures Preserved(u, path, sectionType, old', new')
            <==> && Mask(u, path, sectionType, old') == Mask(u, path, sectionType, new')
                 && Comparable(u, path, sectionType, old') && MarkupFree(u, path, sectionType, new')
    decreases old', 0
  {
    var a, b := Mask(u, path, sectionType, old').items, Mask(u, path, sectionType, new').items;
    if |old'.items| == |new'.items| {
      forall i | 0 <= i < |old'.items|
        ensures Preserved(u, path + ["[]"], sectionType, old'.items[i], new'.items[i])
                <==> && a[i] == b[i]
                     && Comparable(u, path + ["[]"], sectionType, old'.items[i])
                     && MarkupFree(u, path + ["[]"], sectionType, new'.items[i])
      {
        PreservedMeaning(u, path + ["[]"], sectionType, old'.items[i], new'.items[i]);
      }
    } else {
      assert |a| != |b|;
    }
  }

  lemma {:induction false} MembersMeaning(u: Library, path: Path, sectionType: string, old': Json, new': Json)
    requires u.Valid() && old'.Object? && new'.Object?
    ensures Preserved(u, path, sectionType, old', new')
            <==> && Mask(u, path, sectionType, old') == Mask(u, path, sectionType, new')
                 && Comparable(u, path, sectionType, old') && MarkupFree(u, path, sectionType, new')
    decreases old', 0
  {
    var inner := Inner(path, sectionType, old'.members);
    var a, b := Mask(u, path, sectionType, old').members, Mask(u, path, sectionType, new').members;
    assert a.Keys == old'.members.Keys && b.Keys == new'.members.Keys;
    if Preserved(u, path, sectionType, old', new') {
      SectionTypeKept(u, path, sectionType, old', new');
      SameKeys(old'.members, new'.members);
    } else if a == b && Comparable(u, path, sectionType, old') {
      assert |old'.members| == |old'.members.Keys| == |new'.members.Keys| == |new'.members|;
      if IsSection(path) {
        assert "sectionType" in a ==> a["sectionType"] == b["sectionType"];
        SectionTypeProtected(u, path, sectionType, old'.members, new'.members);
      }
    }
    if inner == Inner(path, sectionType, new'.members) {
      forall key | key in old'.members && key in new'.members
        ensures Preserved(u, path + [key], inner, old'.members[key], new'.members[key])
                <==> && a[key] == b[key]
                     && Comparable(u, path + [key], inner, old'.members[key])
                     && MarkupFree(u, path + [key], inner, new'.members[key])
      {
        PreservedMeaning(u, path + [key], inner, old'.members[key], new'.members[key]);
      }
    }
  }

  // ---------------------------------------------------------------- whole documents

  ghost predicate Accepted(u: Library, source: Json, candidate: Json) { Preserved(u, [], "", source, candidate) }

  /** The documents compared, after decoding. */
  method ValidatePreserved(u: Library, source: Option<Json>, candidate: Option<Json>) returns (ok: bool)
    ensures ok <==> source.Some? && candidate.Some? && Accepted(u, source.value, candidate.value)
  {
    if source.None? || candidate.None? { return false; }
    ok := ComparePreserved(u, [], "", source.value, candidate.value);
  }

  /** Translating an accepted translation again cannot drift: the first source still accepts the result. */
  lemma AcceptedIsTransitive(u: Library, a: Json, b: Json, c: Json)
    requires u.Valid() && Accepted(u, a, b) && Accepted(u, b, c)
    ensures Accepted(u, a, c)
  {
    PreservedMeaning(u, [], "", a, b);
    PreservedMeaning(u, [], "", b, c);
    PreservedMeaning(u, [], "", a, c);
  }

  /** A document accepts itself exactly when it can be compared and has no markup in plain text. */
  lemma AcceptsItself(u: Library, a: Json)
    requires u.Valid()
    ensures Accepted(u, a, a) <==> Comparable(u, [], "", a) && MarkupFree(u, [], "", a)
  {
    PreservedMeaning(u, [], "", a, a);
  }

  /** An accepted edit may be undone exactly when the source itself had no markup in plain text. */
  lemma AcceptedIsReversible(u: Library, a: Json, b: Json)
    requires u.Valid() && Accepted(u, a, b)
    ensures Accepted(u, b, a) <==> MarkupFree(u, [], "", a)
  {
    PreservedMeaning(u, [], "", a, b);
    PreservedMeaning(u, [], "", b, a);
    ComparableByMask(u, [], "", a, b);
  }

  /** A document with one text in its personal details. */
  function Personal(field: string, text: string): Json {
    Object(map["personalDetails" := Object(map[field := String(text)])])
  }

  /** What a plain translation keeps: whether there is any text, its numbers, and that no markup comes in. */
  lemma HeadlineMeans(u: Library, a: string, b: string)
    ensures Accepted(u, Personal("headline", a), Personal("headline", b)) <==>
              && ((forall c <- a :: u.isSpace(c)) <==> (forall c <- b :: u.isSpace(c)))
              && multiset(DigitRuns(u, a)) == multiset(DigitRuns(u, b))
              && '<' !in b && '>' !in b
  {
    PersonalTexts(u, "headline", a, b);
    hide Accepted, Personal;
  }

  /** Of the texts in the personal details themselves, the headline may be translated. */
  lemma PersonalTexts(u: Library, field: string, a: string, b: string)
    ensures Accepted(u, Personal(field, a), Personal(field, b))
            <==> if field == "headline" then SamePlainText(u, a, b) else a == b
  {
    hide SamePlainText, Preserved;
    assert [] + ["personalDetails"] == ["personalDetails"];
    assert ["personalDetails"] + [field] == ["personalDetails", field];
    OneMember(u, [], "", "personalDetails", Object(map[field := String(a)]), Object(map[field := String(b)]));
    OneMember(u, ["personalDetails"], "", field, String(a), String(b));
    TextKept(u, ["personalDetails", field], "", a, b);
  }

  /** A document with one contact detail that has one text. */
  function OneDetail(field: string, text: string): Json {
    Object(map["personalDetails" := Object(map["details" := Array([Object(map[field := String(text)])])])])
  }

  /** Of a contact detail, the label may be translated. */
  lemma DetailTexts(u: Library, field: string, a: string, b: string)
    ensures Accepted(u, OneDetail(field, a), OneDetail(field, b))
            <==> if field == "label" then SamePlainText(u, a, b) else a == b
  {
    hide SamePlainText, Preserved;
    var x, y := Object(map[field := String(a)]), Object(map[field := String(b)]);
    var path := ["personalDetails", "details", "[]", field];
    assert [] + ["personalDetails"] == path[..1] && path[..1] + ["details"] == path[..2];
    assert path[..2] + ["[]"] == path[..3] && path[..3] + [field] == path;
    OneMember(u, [], "", "personalDetails", Object(map["details" := Array([x])]), Object(map["details" := Array([y])]));
    OneMember(u, path[..1], "", "details", Array([x]), Array([y]));
    OneItem(u, path[..2], "", x, y);
    OneMember(u, path[..3], "", field, String(a), String(b));
    TextKept(u, path, "", a, b);
  }

  // ---------------------------------------------------------------- which texts may be translated

  /** A document with one section of this type, whose one entry has one text. */
  function OneEntry(key: string, sectionType: string, field: string, text: string): Json {
    var entries := Array([Object(map[field := String(text)])]);
    Object(map["content" := Object(map[key := Section(sectionType, "entries", entries)])])
  }

  /** A section with one text beside its type. */
  function OneHeading(key: string, sectionType: string, field: string, text: string): Json {
    Object(map["content" := Object(map[key := Section(sectionType, field, String(text))])])
  }

  /** Of a section's own texts, the display name may be translated. */
  lemma SectionTexts(u: Library, key: string, sectionType: string, field: string, a: string, b: string)
    requires field != "sectionType"
    ensures Accepted(u, OneHeading(key, sectionType, field, a), OneHeading(key, sectionType, field, b))
            <==> if field == "displayName" then SamePlainText(u, a, b) else a == b
  {
    hide SamePlainText, Preserved;
    var x, y := Section(sectionType, field, String(a)), Section(sectionType, field, String(b));
    assert [] + ["content"] == ["content"] && ["content"] + [key] == ["content", key];
    OneMember(u, [], "", "content", Object(map[key := x]), Object(map[key := y]));
    OneMember(u, ["content"], "", key, x, y);
    OneSection(u, key, sectionType, field, String(a), String(b));
    TextKept(u, ["content", key, field], sectionType, a, b);
  }

  /**
   What may be translated in an entry, by the type of its section: plain role names and subtitles, and the rich
   descriptions. Every other text is kept to the letter, whatever the section and the field are called.
   */
  lemma EntryTexts(u: Library, key: string, sectionType: string, field: string, a: string, b: string)
    ensures Accepted(u, OneEntry(key, sectionType, field, a), OneEntry(key, sectionType, field, b)) <==>
              if (sectionType, field) in {("work", "jobTitle"), ("project", "subtitle"), ("custom", "subtitle")} then
                SamePlainText(u, a, b)
              else if (sectionType, field) in {("profile", "text"), ("skill", "infoHtml"), ("work", "description"),
                                               ("education", "description"), ("certificate", "description"),
                                               ("project", "description"), ("custom", "description")} then
                SameRichText(u, a, b)
              else a == b
  {
    hide SamePlainText, SameRichText, Preserved, PathKind, EntryField;
    var x, y := OneEntry(key, sectionType, field, a), OneEntry(key, sectionType, field, b);
    var content, content' := x.members["content"], y.members["content"];
    var section, section' := content.members[key], content'.members[key];
    var entries, entries' := section.members["entries"], section'.members["entries"];
    OneMember(u, [], "", "content", content, content');
    OneMember(u, ["content"], "", key, section, section');
    var path := ["content", key, "entries", "[]", field];
    assert [] + ["content"] == ["content"] && ["content"] + [key] == ["content", key];
    OneSection(u, key, sectionType, "entries", entries, entries');
    OneItem(u, ["content", key, "entries"], sectionType, entries.items[0], entries'.items[0]);
    assert ["content", key, "entries"] + ["[]"] == path[..4];
    OneMember(u, path[..4], sectionType, field, String(a), String(b));
    assert path[..4] + [field] == path;
    assert Accepted(u, x, y) <==> Preserved(u, path, sectionType, String(a), String(b));
    TextKept(u, path, sectionType, a, b);
    EntryKinds(path, sectionType);
  }

  lemma TextKept(u: Library, path: Path, sectionType: string, a: string, b: string)
    ensures Preserved(u, path, sectionType, String(a), String(b))
            <==> SameText(u, PathKind(path, sectionType), a, b)
  {
  }

  lemma OneMember(u: Library, path: Path, sectionType: string, key: string, a: Json, b: Json)
    requires !IsSection(path)
    ensures Preserved(u, path, sectionType, Object(map[key := a]), Object(map[key := b]))
            <==> Preserved(u, path + [key], sectionType, a, b)
  {
    hide SameText, PathKind;
    assert |map[key := a]| == |map[key := b]| == 1;
  }

  lemma OneItem(u: Library, path: Path, sectionType: string, a: Json, b: Json)
    ensures Preserved(u, path, sectionType, Array([a]), Array([b]))
            <==> Preserved(u, path + ["[]"], sectionType, a, b)
  {
    hide SameText, PathKind;
    var x, y := Array([a]), Array([b]);
    assert x.items[0] == a && y.items[0] == b;
    assert Preserved(u, path, sectionType, x, y)
           <==> forall i :: 0 <= i < 1 ==> Preserved(u, path + ["[]"], sectionType, x.items[i], y.items[i]);
  }

  /** A section with one member beside its type. */
  function Section(sectionType: string, member: string, value: Json): Json {
    Object(map["sectionType" := String(sectionType), member := value])
  }

  lemma OneSection(u: Library, key: string, sectionType: string, member: string, a: Json, b: Json)
    requires member != "sectionType"
    ensures Preserved(u, ["content", key], "", Section(sectionType, member, a), Section(sectionType, member, b))
            <==> Preserved(u, ["content", key, member], sectionType, a, b)
  {
    var path: Path, x, y := ["content", key], Section(sectionType, member, a), Section(sectionType, member, b);
    SectionTypePath(path, sectionType);
    assert Preserved(u, path + ["sectionType"], sectionType, String(sectionType), String(sectionType));
    hide SameText, PathKind;
    assert path + [member] == ["content", key, member];
    assert x.members.Keys == y.members.Keys == {"sectionType", member};
    assert |x.members| == |x.members.Keys| && |y.members| == |y.members.Keys|;
    assert Declared(x.members) == Some(sectionType);
    assert Preserved(u, path, "", x, y) <==> forall k <- x.members ::
      k in y.members && Preserved(u, path + [k], sectionType, x.members[k], y.members[k]);
    hide Preserved;
  }

  lemma EntryKinds(path: Path, sectionType: string)
    requires |path| == 5 && path[0] == "content" && path[2] == "entries" && path[3] == "[]"
    ensures PathKind(path, sectionType)
            == if (sectionType, path[4]) in {("work", "jobTitle"), ("project", "subtitle"), ("custom", "subtitle")}
               then PlainText
               else if (sectionType, path[4]) in {("profile", "text"), ("skill", "infoHtml"), ("work", "description"),
                                                  ("education", "description"), ("certificate", "description"),
                                                  ("project", "description"), ("custom", "description")}
               then RichValue
               else ProtectedValue
  {
  }

  /** A document that says `1 < 2` in a plain text does not accept itself, whatever the Unicode tables. */
  lemma MarkupIsRefused(u: Library)
    ensures !Accepted(u, Personal("headline", "1 < 2"), Personal("headline", "1 < 2"))
  {
    PersonalTexts(u, "headline", "1 < 2", "1 < 2");
    assert '<' in "1 < 2" by { assert "1 < 2"[2] == '<'; }
  }

  /** Its markup may be translated away, and then cannot come back. */
  lemma RemovedMarkupStaysAway(u: Library)
    requires !u.isSpace('<') && !u.isSpace('a') && !u.isDigit('<') && !u.isDigit('a')
    ensures Accepted(u, Personal("headline", "<"), Personal("headline", "a"))
    ensures !Accepted(u, Personal("headline", "a"), Personal("headline", "<"))
  {
    hide Accepted, Personal;
    PersonalTexts(u, "headline", "<", "a");
    PersonalTexts(u, "headline", "a", "<");
    assert "<"[0] == '<' && "a"[0] == 'a';
    assert RunsFrom(u, "", "<"[1..]) == [] && RunsFrom(u, "", "a"[1..]) == [];
    assert SameRuns(u, "<", "a");
  }

  /** Whether a document can be compared is decided by its mask. */
  lemma {:induction false} ComparableByMask(u: Library, path: Path, sectionType: string, a: Json, b: Json)
    requires u.Valid() && Mask(u, path, sectionType, a) == Mask(u, path, sectionType, b)
    requires Comparable(u, path, sectionType, a)
    ensures Comparable(u, path, sectionType, b)
    decreases a
  {
    match a
    case Object(members) =>
      ComparableMembers(u, path, sectionType, a, b);
    case Array(items) =>
      var m, n := Mask(u, path, sectionType, a).items, Mask(u, path, sectionType, b).items;
      forall i | 0 <= i < |b.items| ensures Comparable(u, path + ["[]"], sectionType, b.items[i]) {
        assert |m| == |n| && m[i] == n[i];
        ComparableByMask(u, path + ["[]"], sectionType, items[i], b.items[i]);
      }
    case String(text) =>
      if PathKind(path, sectionType).RichValue? {
        assert Shapes(u, u.parse(text).value) == Shapes(u, u.parse(b.text).value);
        PlainByShape(u, u.parse(text).value, u.parse(b.text).value, MAX_RICH_TEXT_DEPTH);
      }
    case _ =>
  }

  lemma {:induction false} ComparableMembers(u: Library, path: Path, sectionType: string, a: Json, b: Json)
    requires u.Valid() && a.Object? && b.Object? && Mask(u, path, sectionType, a) == Mask(u, path, sectionType, b)
    requires Comparable(u, path, sectionType, a)
    ensures Comparable(u, path, sectionType, b)
    decreases a, 0
  {
    var m, n := Mask(u, path, sectionType, a).members, Mask(u, path, sectionType, b).members;
    assert m.Keys == a.members.Keys && n.Keys == b.members.Keys;
    if IsSection(path) {
      assert "sectionType" in m ==> m["sectionType"] == n["sectionType"];
      SectionTypeProtected(u, path, sectionType, a.members, b.members);
    }
    var inner := Inner(path, sectionType, a.members);
    forall key <- b.members ensures Comparable(u, path + [key], inner, b.members[key]) {
      assert m[key] == n[key];
      ComparableByMask(u, path + [key], inner, a.members[key], b.members[key]);
    }
  }

  /** No text at or below this path may be translated. */
  predicate Elsewhere(path: Path) {
    path != [] &&
    if path[0] == "personalDetails" then
      || (|path| > 1 && path[1] != "headline" && path[1] != "details")
      || (|path| > 2 && (path[1] != "details" || path[2] != "[]"))
      || (|path| > 3 && path[3] != "label")
      || |path| > 4
    else if path[0] == "content" then
      || (|path| > 2 && path[2] != "displayName" && path[2] != "entries")
      || (|path| > 3 && (path[2] != "entries" || path[3] != "[]"))
      || |path| > 5
    else true
  }

  /** Everything at the other places is kept to the letter. */
  lemma {:induction false} UntouchedElsewhere(u: Library, path: Path, sectionType: string, a: Json, b: Json)
    requires Elsewhere(path) && Preserved(u, path, sectionType, a, b)
    ensures a == b
    decreases a
  {
    match a
    case Object(members) =>
      SameKeys(members, b.members);
      forall key <- members ensures members[key] == b.members[key] {
        UntouchedElsewhere(u, path + [key], sectionType, members[key], b.members[key]);
      }
      assert members == b.members;
    case Array(items) =>
      forall i | 0 <= i < |items| ensures items[i] == b.items[i] {
        UntouchedElsewhere(u, path + ["[]"], sectionType, items[i], b.items[i]);
      }
      assert items == b.items;
    case String(text) =>
    case _ =>
  }

  /** A value none of whose parts may be translated, and which is no text itself. */
  lemma NoTextInside(u: Library, path: Path, sectionType: string, a: Json, b: Json)
    requires Preserved(u, path, sectionType, a, b) && !a.String? && !IsSection(path)
    requires forall key :: Elsewhere(path + [key])
    ensures a == b
  {
    match a
    case Object(members) =>
      SameKeys(members, b.members);
      forall key <- members ensures members[key] == b.members[key] {
        UntouchedElsewhere(u, path + [key], sectionType, members[key], b.members[key]);
      }
      assert members == b.members;
    case Array(items) =>
      forall i | 0 <= i < |items| ensures items[i] == b.items[i] {
        UntouchedElsewhere(u, path + ["[]"], sectionType, items[i], b.items[i]);
      }
      assert items == b.items;
    case _ =>
  }

  lemma AcceptedSection(u: Library, a: Json, b: Json, key: string)
    requires Accepted(u, a, b) && a.Object? && "content" in a.members && a.members["content"].Object?
    requires key in a.members["content"].members && a.members["content"].members[key].Object?
    ensures b.Object? && "content" in b.members && b.members["content"].Object?
    ensures key in b.members["content"].members && b.members["content"].members[key].Object?
    ensures var section, section' := a.members["content"].members[key], b.members["content"].members[key];
            Preserved(u, ["content", key], "", section, section')
            && Declared(section.members).Some? && Declared(section'.members) == Declared(section.members)
  {
    hide PathKind;
    assert [] + ["content"] == ["content"] && ["content"] + [key] == ["content", key];
    assert Preserved(u, ["content"], "", a.members["content"], b.members["content"]);
    SectionDeclared(u, ["content", key], a.members["content"].members[key], b.members["content"].members[key]);
  }

  lemma SectionDeclared(u: Library, path: Path, a: Json, b: Json)
    requires IsSection(path) && a.Object? && Preserved(u, path, "", a, b)
    ensures Declared(a.members).Some? && Declared(b.members) == Declared(a.members)
  {
    var sectionType := Declared(a.members).value;
    SectionTypePath(path, sectionType);
    assert Preserved(u, path + ["sectionType"], sectionType, a.members["sectionType"], b.members["sectionType"]);
  }

  /** Whatever else the documents hold: the same entry, and in each of its fields at most a translated text. */
  lemma AcceptedEntry(u: Library, a: Json, b: Json, key: string, sectionType: string, i: nat, field: string)
    requires Accepted(u, a, b) && a.Object? && "content" in a.members && a.members["content"].Object?
    requires var content := a.members["content"].members;
             && key in content && content[key].Object? && Declared(content[key].members) == Some(sectionType)
             && "entries" in content[key].members
    requires var entries := a.members["content"].members[key].members["entries"];
             entries.Array? && i < |entries.items| && entries.items[i].Object? && field in entries.items[i].members
    ensures b.Object? && "content" in b.members && b.members["content"].Object?
    ensures var content := b.members["content"].members;
            && key in content && content[key].Object? && Declared(content[key].members) == Some(sectionType)
            && "entries" in content[key].members
    ensures var entries := b.members["content"].members[key].members["entries"];
            entries.Array? && i < |entries.items| && entries.items[i].Object? && field in entries.items[i].members
    ensures var x := a.members["content"].members[key].members["entries"].items[i].members[field];
            var y := b.members["content"].members[key].members["entries"].items[i].members[field];
            if !x.String? then x == y
            else if (sectionType, field) in {("work", "jobTitle"), ("project", "subtitle"), ("custom", "subtitle")} then
              y.String? && SamePlainText(u, x.text, y.text)
            else if (sectionType, field) in {("profile", "text"), ("skill", "infoHtml"), ("work", "description"),
                                             ("education", "description"), ("certificate", "description"),
                                             ("project", "description"), ("custom", "description")} then
              y.String? && SameRichText(u, x.text, y.text)
            else x == y
  {
    hide SamePlainText, SameRichText, PathKind, Elsewhere;
    var path := ["content", key, "entries", "[]", field];
    assert path[..2] == ["content", key] && path[..2] + ["entries"] == path[..3];
    AcceptedSection(u, a, b, key);
    var section, section' := a.members["content"].members[key], b.members["content"].members[key];
    assert Preserved(u, path[..3], sectionType, section.members["entries"], section'.members["entries"]);
    hide Preserved;
    EntryKept(u, path, sectionType, section.members["entries"], section'.members["entries"], i);
    EntryKinds(path, sectionType);
  }

  lemma EntryKept(u: Library, path: Path, sectionType: string, a: Json, b: Json, i: nat)
    requires |path| == 5 && path[0] == "content" && path[2] == "entries" && path[3] == "[]"
    requires Preserved(u, path[..3], sectionType, a, b)
    requires a.Array? && i < |a.items| && a.items[i].Object? && path[4] in a.items[i].members
    ensures b.Array? && i < |b.items| && b.items[i].Object? && path[4] in b.items[i].members
    ensures var x, y := a.items[i].members[path[4]], b.items[i].members[path[4]];
            if x.String? then y.String? && SameText(u, PathKind(path, sectionType), x.text, y.text) else x == y
  {
    assert path[..3] + ["[]"] == path[..4] && path[..4] + [path[4]] == path;
    var x, y := a.items[i].members[path[4]], b.items[i].members[path[4]];
    assert Preserved(u, path[..4], sectionType, a.items[i], b.items[i]);
    assert Preserved(u, path, sectionType, x, y);
    if !x.String? {
      forall key ensures Elsewhere(path + [key]) { }
      NoTextInside(u, path, sectionType, x, y);
    }
  }

  /** Names, addresses and whatever else the personal details hold are kept to the letter. */
  lemma AcceptedKeepsPersonal(u: Library, a: Json, b: Json, key: string)
    requires Accepted(u, a, b) && a.Object? && "personalDetails" in a.members && a.members["personalDetails"].Object?
    requires key in a.members["personalDetails"].members && key != "headline" && key != "details"
    ensures b.Object? && "personalDetails" in b.members && b.members["personalDetails"].Object?
    ensures key in b.members["personalDetails"].members
    ensures b.members["personalDetails"].members[key] == a.members["personalDetails"].members[key]
  {
    assert [] + ["personalDetails"] == ["personalDetails"];
    assert ["personalDetails"] + [key] == ["personalDetails", key];
    var inside, inside' := a.members["personalDetails"], b.members["personalDetails"];
    assert Preserved(u, ["personalDetails"], "", inside, inside');
    UntouchedElsewhere(u, ["personalDetails", key], "", inside.members[key], inside'.members[key]);
  }

  /** So is every member of a section beside its display name and its entries. */
  lemma AcceptedKeepsSection(u: Library, a: Json, b: Json, key: string, member: string)
    requires Accepted(u, a, b) && a.Object? && "content" in a.members && a.members["content"].Object?
    requires key in a.members["content"].members && a.members["content"].members[key].Object?
    requires member in a.members["content"].members[key].members && member != "displayName" && member != "entries"
    ensures b.Object? && "content" in b.members && b.members["content"].Object?
    ensures key in b.members["content"].members && b.members["content"].members[key].Object?
    ensures member in b.members["content"].members[key].members
    ensures b.members["content"].members[key].members[member] == a.members["content"].members[key].members[member]
  {
    var path := ["content", key, member];
    assert path[..2] == ["content", key] && path[..2] + [member] == path;
    AcceptedSection(u, a, b, key);
    var section, section' := a.members["content"].members[key], b.members["content"].members[key];
    var sectionType := Declared(section.members).value;
    assert Preserved(u, path, sectionType, section.members[member], section'.members[member]);
    UntouchedElsewhere(u, path, sectionType, section.members[member], section'.members[member]);
  }

  lemma AcceptedKeepsTopLevel(u: Library, a: Json, b: Json, key: string)
    requires Accepted(u, a, b) && a.Object? && key in a.members && key != "personalDetails" && key != "content"
    ensures b.Object? && key in b.members && b.members[key] == a.members[key]
  {
    assert [] + [key] == [key];
    UntouchedElsewhere(u, [key], "", a.members[key], b.members[key]);
  }
}
