/** Digit runs, and rich text compared by shape and by the numbers in it. */
module RichText {
  import opened Options
  import opened Ordering

  /** An HTML node as parsed: text, an element, or anything else, with its children. */
  datatype Attribute = Attribute(space: string, name: string, value: string)
  datatype Kind = Text(data: string) | Element(tag: string, attributes: seq<Attribute>) | Other
  datatype Node = Node(kind: Kind, children: seq<Node>)

  /** The Unicode tables and the HTML parser, which are libraries of the source. */
  datatype Library = Library(isDigit: char -> bool, isSpace: char -> bool, parse: string -> Option<seq<Node>>) {
    ghost predicate Valid() { !isDigit(' ') }
  }

  const MAX_RICH_TEXT_DEPTH: nat := 64

  // ---------------------------------------------------------------- digit runs

  /** The runs that end after `s`, when `current` is the run under way. */
  function RunsFrom(u: Library, current: string, s: string): seq<string>
    decreases |s|
  {
    if s == "" then (if current == "" then [] else [current])
    else if u.isDigit(s[0]) then RunsFrom(u, current + [s[0]], s[1..])
    else (if current == "" then [] else [current]) + RunsFrom(u, "", s[1..])
  }

  function DigitRuns(u: Library, s: string): seq<string> { RunsFrom(u, "", s) }

  method CollectDigitRuns(u: Library, value: string) returns (runs: seq<string>)
    ensures runs == DigitRuns(u, value)
  {
    runs := [];
    var current := "";
    for i := 0 to |value|
      invariant runs + RunsFrom(u, current, value[i..]) == DigitRuns(u, value)
    {
      assert value[i..][0] == value[i] && value[i..][1..] == value[i + 1..];
      if u.isDigit(value[i]) {
        current := current + [value[i]];
      } else if current != "" {
        runs := runs + [current];
        current := "";
      }
    }
    if current != "" { runs := runs + [current]; }
  }

  lemma {:induction false} RunsFromSeparated(u: Library, current: string, a: string, c: char, b: string)
    requires !u.isDigit(c)
    ensures RunsFrom(u, current, a + [c] + b) == RunsFrom(u, current, a) + RunsFrom(u, "", b)
    decreases |a|
  {
    var s := a + [c] + b;
    if a == "" {
      assert s[1..] == b;
    } else {
      assert s[1..] == a[1..] + [c] + b;
      if u.isDigit(a[0]) {
        RunsFromSeparated(u, current + [a[0]], a[1..], c, b);
      } else {
        RunsFromSeparated(u, "", a[1..], c, b);
      }
    }
  }

  /** A run never crosses a character that is not a digit. With the two facts below, this fixes the runs. */
  lemma RunsSeparated(u: Library, a: string, c: char, b: string)
    requires !u.isDigit(c)
    ensures DigitRuns(u, a + [c] + b) == DigitRuns(u, a) + DigitRuns(u, b)
  {
    RunsFromSeparated(u, "", a, c, b);
  }

  lemma {:induction false} RunsOfDigits(u: Library, current: string, s: string)
    requires forall c <- s :: u.isDigit(c)
    ensures RunsFrom(u, current, s) == if current + s == "" then [] else [current + s]
    decreases |s|
  {
    if s != "" {
      RunsOfDigits(u, current + [s[0]], s[1..]);
      assert current + [s[0]] + s[1..] == current + s;
    } else {
      assert current + s == current;
    }
  }

  /** The same runs, compared sorted. */
  method SameDigitRuns(u: Library, old': string, new': string) returns (same: bool)
    ensures same <==> multiset(DigitRuns(u, old')) == multiset(DigitRuns(u, new'))
  {
    var oldRuns := CollectDigitRuns(u, old');
    var newRuns := CollectDigitRuns(u, new');
    SortedListsDecide(oldRuns, newRuns);
    same := SameLists(Sort(oldRuns, StringLeq), Sort(newRuns, StringLeq));
  }

  method SameLists(a: seq<string>, b: seq<string>) returns (same: bool)
    ensures same <==> a == b
  {
    if |a| != |b| { return false; }
    for i := 0 to |a|
      invariant forall k :: 0 <= k < i ==> a[k] == b[k]
    {
      if a[i] != b[i] { return false; }
    }
    return true;
  }

  lemma SortedListsDecide(a: seq<string>, b: seq<string>)
    ensures Sort(a, StringLeq) == Sort(b, StringLeq) <==> multiset(a) == multiset(b)
  {
    StringOrder();
    SortDecidesMultiset(a, b, StringLeq);
  }

  // ---------------------------------------------------------------- the comparison as the source makes it

  predicate Blank(u: Library, s: string) { forall c <- s :: u.isSpace(c) }

  function CollectText(node: Node, depth: nat): string {
    if depth > MAX_RICH_TEXT_DEPTH then ""
    else OwnText(node) + CollectForest(node.children, depth + 1)
  }

  function CollectForest(nodes: seq<Node>, depth: nat): string {
    if nodes == [] then "" else CollectText(nodes[0], depth) + CollectForest(nodes[1..], depth)
  }

  predicate SameKind(u: Library, old': Kind, new': Kind) {
    match old'
    case Text(data) => new'.Text? && Blank(u, data) == Blank(u, new'.data)
    case Element(tag, attributes) => new'.Element? && tag == new'.tag && attributes == new'.attributes
    case Other => false
  }

  predicate SameHtmlShape(u: Library, old': Node, new': Node, depth: nat) {
    && depth <= MAX_RICH_TEXT_DEPTH && SameKind(u, old'.kind, new'.kind)
    && SameForest(u, old'.children, new'.children, depth + 1)
  }

  predicate SameForest(u: Library, old': seq<Node>, new': seq<Node>, depth: nat) {
    if old' == [] || new' == [] then old' == new' == []
    else SameHtmlShape(u, old'[0], new'[0], depth) && SameForest(u, old'[1..], new'[1..], depth)
  }

  predicate SameRichText(u: Library, old': string, new': string) {
    var oldNodes, newNodes := u.parse(old'), u.parse(new');
    && oldNodes.Some? && newNodes.Some? && |oldNodes.value| == |newNodes.value|
    && SameRuns(u, CollectForest(oldNodes.value, 0), CollectForest(newNodes.value, 0))
    && SameForest(u, oldNodes.value, newNodes.value, 0)
  }

  predicate SameRuns(u: Library, old': string, new': string) {
    multiset(DigitRuns(u, old')) == multiset(DigitRuns(u, new'))
  }

  // ---------------------------------------------------------------- what it means

  /** A forest with every text masked to whether it is blank. */
  datatype ShapeKind = TextShape(blank: bool) | ElementShape(tag: string, attributes: seq<Attribute>) | OtherShape
  datatype Shape = Shape(kind: ShapeKind, children: seq<Shape>)

  function KindShape(u: Library, kind: Kind): ShapeKind {
    match kind
    case Text(data) => TextShape(Blank(u, data))
    case Element(tag, attributes) => ElementShape(tag, attributes)
    case Other => OtherShape
  }

  function ShapeOf(u: Library, node: Node): Shape {
    Shape(KindShape(u, node.kind), Shapes(u, node.children))
  }

  function Shapes(u: Library, nodes: seq<Node>): (shapes: seq<Shape>)
    ensures |shapes| == |nodes|
  {
    if nodes == [] then [] else [ShapeOf(u, nodes[0])] + Shapes(u, nodes[1..])
  }

  /** Only text and elements, nested no deeper than `depth` more levels. */
  predicate Plain(nodes: seq<Node>, depth: int) {
    || nodes == []
    || (depth >= 0 && !nodes[0].kind.Other? && Plain(nodes[0].children, depth - 1) && Plain(nodes[1..], depth))
  }

  /** The digit runs of all text nodes, at every depth. */
  function AllRuns(u: Library, nodes: seq<Node>): seq<string> {
    if nodes == [] then []
    else NodeRuns(u, nodes[0]) + AllRuns(u, nodes[0].children) + AllRuns(u, nodes[1..])
  }

  lemma Regroup<T>(a: seq<T>, b: seq<T>, c: seq<T>, d: seq<T>)
    ensures (a + b + c) + d == a + (b + (c + d)) && (a + b + c) + d == (a + b) + (c + d)
  {
  }

  /** Runs never merge across nodes, and below the limit no text is missed. */
  lemma {:induction false} CollectedRuns(u: Library, nodes: seq<Node>, depth: nat, rest: string)
    requires u.Valid() && Plain(nodes, MAX_RICH_TEXT_DEPTH - depth)
    ensures DigitRuns(u, CollectForest(nodes, depth) + rest) == AllRuns(u, nodes) + DigitRuns(u, rest)
  {
    if nodes == [] {
      assert "" + rest == rest;
    } else {
      var node := nodes[0];
      var more := CollectForest(nodes[1..], depth) + rest;
      CollectedRuns(u, nodes[1..], depth, rest);
      CollectedRuns(u, node.children, depth + 1, more);
      OwnRuns(u, node, CollectForest(node.children, depth + 1) + more);
      Regroup(OwnText(node), CollectForest(node.children, depth + 1), CollectForest(nodes[1..], depth), rest);
      Regroup(NodeRuns(u, node), AllRuns(u, node.children), AllRuns(u, nodes[1..]), DigitRuns(u, rest));
    }
  }

  function OwnText(node: Node): string { if node.kind.Text? then node.kind.data + " " else "" }

  function NodeRuns(u: Library, node: Node): seq<string> {
    if node.kind.Text? then DigitRuns(u, node.kind.data) else []
  }

  lemma OwnRuns(u: Library, node: Node, rest: string)
    requires u.Valid()
    ensures DigitRuns(u, OwnText(node) + rest) == NodeRuns(u, node) + DigitRuns(u, rest)
  {
    if node.kind.Text? {
      assert OwnText(node) + rest == node.kind.data + [' '] + rest;
      RunsSeparated(u, node.kind.data, ' ', rest);
    } else {
      assert OwnText(node) + rest == rest;
    }
  }

  /** The recursive comparison decides equal shapes, for forests it can read to the bottom. */
  lemma {:induction false} SameForestMeaning(u: Library, old': seq<Node>, new': seq<Node>, depth: nat)
    ensures SameForest(u, old', new', depth)
            <==> Plain(old', MAX_RICH_TEXT_DEPTH - depth) && Shapes(u, old') == Shapes(u, new')
  {
    if old' != [] && new' != [] {
      SameForestMeaning(u, old'[0].children, new'[0].children, depth + 1);
      SameForestMeaning(u, old'[1..], new'[1..], depth);
      var s, t := Shapes(u, old'), Shapes(u, new');
      assert s[0] == ShapeOf(u, old'[0]) && s[1..] == Shapes(u, old'[1..]);
      assert t[0] == ShapeOf(u, new'[0]) && t[1..] == Shapes(u, new'[1..]);
      assert s == [s[0]] + s[1..] && t == [t[0]] + t[1..];
      if old'[0].kind.Other? {
        assert !SameForest(u, old', new', depth);
      }
    }
  }

  /** Equal shapes are read equally deep. */
  lemma {:induction false} PlainByShape(u: Library, old': seq<Node>, new': seq<Node>, depth: int)
    requires Shapes(u, old') == Shapes(u, new')
    ensures Plain(old', depth) <==> Plain(new', depth)
  {
    if old' != [] {
      var s, t := Shapes(u, old'), Shapes(u, new');
      assert s[0] == ShapeOf(u, old'[0]) && s[1..] == Shapes(u, old'[1..]);
      assert t[0] == ShapeOf(u, new'[0]) && t[1..] == Shapes(u, new'[1..]);
      PlainByShape(u, old'[0].children, new'[0].children, depth - 1);
      PlainByShape(u, old'[1..], new'[1..], depth);
    }
  }

  /**
   What an accepted translation keeps of every node, at most 64 levels deep: it is a text or an element, an element is
   the same with all its attributes, a text stays a text, blank or not, and so on for its children.
   */
  lemma {:induction false} ForestKept(u: Library, old': seq<Node>, new': seq<Node>, depth: nat)
    ensures SameForest(u, old', new', depth) <==>
              && |old'| == |new'|
              && forall i :: 0 <= i < |old'| ==>
                   && depth <= 64 && SameForest(u, old'[i].children, new'[i].children, depth + 1)
                   && match old'[i].kind
                      case Text(data) =>
                        && new'[i].kind.Text?
                        && ((forall c <- data :: u.isSpace(c)) <==> (forall c <- new'[i].kind.data :: u.isSpace(c)))
                      case Element(_, _) => new'[i].kind == old'[i].kind
                      case Other => false
  {
    if old' != [] && new' != [] {
      ForestKept(u, old'[1..], new'[1..], depth);
      assert forall i :: 0 < i < |old'| ==> old'[i] == old'[1..][i - 1];
      assert forall i :: 0 < i < |new'| ==> new'[i] == new'[1..][i - 1];
    }
  }

  /** A text alone may be translated as long as it stays blank or not blank and keeps its numbers. */
  lemma OneText(u: Library, old': string, new': string, a: string, b: string)
    requires u.Valid()
    requires u.parse(old') == Some([Node(Text(a), [])]) && u.parse(new') == Some([Node(Text(b), [])])
    ensures SameRichText(u, old', new') <==>
              && ((forall c <- a :: u.isSpace(c)) <==> (forall c <- b :: u.isSpace(c)))
              && multiset(DigitRuns(u, a)) == multiset(DigitRuns(u, b))
  {
    var x, y := Node(Text(a), []), Node(Text(b), []);
    ForestKept(u, [x], [y], 0);
    assert [x][0] == x && [y][0] == y && [x][1..] == [] && [y][1..] == [];
    assert Plain([x], MAX_RICH_TEXT_DEPTH) && Plain([y], MAX_RICH_TEXT_DEPTH);
    TextRuns(u, [x]);
    TextRuns(u, [y]);
    assert AllRuns(u, [x]) == DigitRuns(u, a) + [] + [] == DigitRuns(u, a);
    assert AllRuns(u, [y]) == DigitRuns(u, b) + [] + [] == DigitRuns(u, b);
    assert SameForest(u, [], [], 1);
    assert SameForest(u, [x], [y], 0) <==> SameKind(u, x.kind, y.kind);
    assert SameRuns(u, CollectForest([x], 0), CollectForest([y], 0))
           <==> multiset(DigitRuns(u, a)) == multiset(DigitRuns(u, b));
  }

  /** Rich text within the depth limit, made of text and elements only. */
  ghost predicate Readable(u: Library, s: string) {
    u.parse(s).Some? && Plain(u.parse(s).value, MAX_RICH_TEXT_DEPTH)
  }

  /**
   The depth limit hides nothing: rich text is accepted exactly when the old one is readable, both have the
   same tags, attributes and structure at every depth, the same texts are blank, and the runs of all text
   nodes agree as multisets.
   */
  lemma {:induction false} SameRichTextMeaning(u: Library, old': string, new': string)
    requires u.Valid()
    ensures SameRichText(u, old', new')
            <==> && Readable(u, old') && u.parse(new').Some?
                 && Shapes(u, u.parse(old').value) == Shapes(u, u.parse(new').value)
                 && multiset(AllRuns(u, u.parse(old').value)) == multiset(AllRuns(u, u.parse(new').value))
  {
    hide Shapes, AllRuns, Plain, SameForest;
    if u.parse(old').Some? && u.parse(new').Some? {
      SameForestMeaning(u, u.parse(old').value, u.parse(new').value, 0);
      if Plain(u.parse(old').value, MAX_RICH_TEXT_DEPTH)
          && Shapes(u, u.parse(old').value) == Shapes(u, u.parse(new').value) {
        PlainByShape(u, u.parse(old').value, u.parse(new').value, MAX_RICH_TEXT_DEPTH);
        TextRuns(u, u.parse(old').value);
        TextRuns(u, u.parse(new').value);
        assert |Shapes(u, u.parse(old').value)| == |Shapes(u, u.parse(new').value)|;
      }
    }
  }

  /** The text that the comparison collects has exactly the runs of all text nodes. */
  lemma TextRuns(u: Library, nodes: seq<Node>)
    requires u.Valid() && Plain(nodes, MAX_RICH_TEXT_DEPTH)
    ensures DigitRuns(u, CollectForest(nodes, 0)) == AllRuns(u, nodes)
  {
    CollectedRuns(u, nodes, 0, "");
    assert CollectForest(nodes, 0) + "" == CollectForest(nodes, 0);
    assert AllRuns(u, nodes) + [] == AllRuns(u, nodes);
  }
}
