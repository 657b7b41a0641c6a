/** What saving and restoring keep, what the matrix is, and what the lighter walker sees. */
module PdfLaws {
  import opened Options
  import opened PdfPaint

  // ---------------------------------------------------------------- runs

  lemma {:induction false} RunAppend(g: Geometry, glyphMode: bool, m: Machine, a: seq<Op>, b: seq<Op>)
    ensures Run(g, glyphMode, m, a + b)
            == if Run(g, glyphMode, m, a).None? then None else Run(g, glyphMode, Run(g, glyphMode, m, a).value, b)
    decreases |b|
  {
    if b == [] {
      assert a + b == a;
    } else {
      assert (a + b)[..|a + b| - 1] == a + b[..|b| - 1];
      RunAppend(g, glyphMode, m, a, b[..|b| - 1]);
    }
  }

  lemma RunOne(g: Geometry, glyphMode: bool, m: Machine, op: Op)
    ensures Run(g, glyphMode, m, [op]) == Step(g, glyphMode, m, op)
  {
    assert [op][..0] == [];
  }

  // ---------------------------------------------------------------- what is painted

  /** The marks that painting a path adds: visible fill, then visible stroke, each in its own color. */
  function PathMarks(g: Geometry, s: State, path: Path, paint: Paint): seq<Mark> {
    if !g.visible(path, s.matrix, s.clip) then []
    else (if paint.fill && !s.transparent && s.alpha > 0.0
          then [Mark(path, s.matrix, s.clip, s.color, s.alpha, false)] else [])
         + if paint.stroke && !s.stroke.transparent && s.stroke.alpha > 0.0
           then [Mark(path, s.matrix, s.clip, s.stroke.color, s.stroke.alpha, true)] else []
  }

  /**
   A path is painted under the clip of that moment and only then becomes part of it, under the rule that waited. A
   stroke that would show is refused when it is a hairline or dashed.
   */
  lemma PathMeans(g: Geometry, m: Machine, path: Path, paint: Paint)
    ensures var next := Step(g, false, m, ConstructPath(path, paint));
            var s, stroke := m.state, m.state.stroke;
            && (next.None? <==> && paint.stroke && !stroke.transparent && stroke.alpha > 0.0
                                && (stroke.width == 0.0 || stroke.dashed))
            && (next.Some? ==>
                  && next.value.marks == m.marks + PathMarks(g, s, path, paint) && next.value.pending.None?
                  && next.value.state == s.(clip := if m.pending.None? then s.clip
                                                    else Cut(s.clip, path, s.matrix, m.pending.value))
                  && next.value.stack == m.stack && next.value.images == m.images && next.value.inks == m.inks)
  {
    assert m.marks + [] == m.marks;
  }

  /** On a fresh page a path is filled and stroked in opaque black, under the viewport, and nothing clips it. */
  lemma FreshPage(g: Geometry, viewport: Matrix, path: Path)
    requires g.visible(path, viewport, Page)
    ensures Step(g, false, Start(viewport), ConstructPath(path, Paint(true, true)))
            == Some(Start(viewport).(marks := [Mark(path, viewport, Page, "#000000", 1.0, false),
                                               Mark(path, viewport, Page, "#000000", 1.0, true)]))
    ensures Start(viewport).stack == [] && Start(viewport).pending.None?
    ensures var pen := Start(viewport).state.stroke;
            pen.width == 1.0 && pen.cap == 0 && pen.join == 0 && pen.miterLimit == 10.0 && !pen.dashed
  {
    var m, all := Start(viewport), Paint(true, true);
    PathMeans(g, m, path, all);
    var fill := Mark(path, viewport, Page, "#000000", 1.0, false);
    var stroke := fill.(stroked := true);
    assert m.marks + PathMarks(g, m.state, path, all) == [fill, stroke];
  }

  /** An image is painted opaquely into the unit square, where that is visible; under any other alpha it is refused. */
  lemma ImageMeans(g: Geometry, m: Machine, image: nat)
    ensures Step(g, false, m, PaintImage(image))
            == if m.state.alpha != 1.0 then None
               else if g.visible(0, m.state.matrix, m.state.clip)
                    then Some(m.(images := m.images + [Image(image, m.state.matrix, m.state.clip)])) else Some(m)
  {
  }

  /** Which settings of a stroke are refused. */
  lemma StrokeRanges(g: Geometry, m: Machine, setting: StrokeSetting)
    ensures Step(g, false, m, SetStroke(setting)).None? <==>
              match setting
              case Width(w) => w < 0.0
              case Cap(cap) => cap !in {0, 1, 2}
              case Join(join) => join !in {0, 1, 2}
              case MiterLimit(limit) => limit < 1.0
              case Dash(_) => false
              case StrokeAlpha(alpha) => alpha < 0.0 || alpha > 1.0
  {
  }

  /** A setting is there for the next path: its width, its dashes, its alpha and its color. */
  lemma StrokeShows(g: Geometry, m: Machine, path: Path, setting: StrokeSetting, color: Color)
    requires Step(g, false, m, SetStroke(setting)).Some?
    ensures var next := Step(g, false, Step(g, false, m, SetStroke(setting)).value, SetStrokeColor(color)).value;
            var was, now := m.state.stroke, next.state.stroke;
            && next == m.(state := m.state.(stroke := now))
            && now.color == color && !now.transparent
            && now.width == (if setting.Width? then setting.w else was.width)
            && now.dashed == (if setting.Dash? then setting.dashed else was.dashed)
            && now.alpha == (if setting.StrokeAlpha? then setting.sa else was.alpha)
            && now.cap == (if setting.Cap? then setting.cap else was.cap)
            && now.join == (if setting.Join? then setting.join else was.join)
            && now.miterLimit == (if setting.MiterLimit? then setting.limit else was.miterLimit)
  {
  }

  /** Colors and their absence. */
  lemma Colors(g: Geometry, m: Machine, color: Color)
    ensures Step(g, false, m, SetFillColor(color)) == Some(m.(state := m.state.(color := color, transparent := false)))
    ensures Step(g, false, m, SetFillTransparent) == Some(m.(state := m.state.(transparent := true)))
    ensures Step(g, false, m, SetStrokeTransparent)
            == Some(m.(state := m.state.(stroke := m.state.stroke.(transparent := true))))
  {
  }

  /** A graphics state dictionary is its entries one after another; inside a glyph only full alpha is allowed. */
  lemma {:induction false} EntriesMean(g: Geometry, glyphMode: bool, m: Machine, entries: seq<GEntry>, entry: GEntry)
    ensures Step(g, glyphMode, m, SetGState([])) == Some(m)
    ensures var before := Step(g, glyphMode, m, SetGState(entries));
            Step(g, glyphMode, m, SetGState(entries + [entry]))
            == if before.None? then None
                        else match entry
                          case Harmless => before
                          case FillAlpha(alpha) =>
                            if alpha < 0.0 || alpha > 1.0 || (glyphMode && alpha != 1.0) then None
                            else Some(before.value.(state := before.value.state.(alpha := alpha)))
                          case Setting(setting) =>
                            var next := Step(g, false, before.value, SetStroke(setting));
                            if next.None? || (glyphMode && next.value.state.stroke.alpha != 1.0) then None else next
  {
    assert (entries + [entry])[..|entries|] == entries;
  }

  /** A form runs under its own matrix and inside its own bounds, which that matrix maps. */
  lemma FormMeans(g: Geometry, glyphMode: bool, m: Machine, matrix: Option<Matrix>, bounds: Option<Path>)
    ensures var next := Step(g, glyphMode, m, FormBegin(matrix, bounds)).value;
            var inside := if matrix.None? then m.state.matrix else Multiply(m.state.matrix, matrix.value);
            && next.stack == m.stack + [m.state]
            && next.state == m.state.(matrix := inside,
                                      clip := if bounds.None? then m.state.clip
                                              else Cut(m.state.clip, bounds.value, inside, Winding))
            && next == m.(stack := next.stack, state := next.state)
  {
  }

  /** A glyph program has no colors, fonts, texts or images of its own; only there do bounds of a glyph clip. */
  lemma GlyphPrograms(g: Geometry, m: Machine, op: Op)
    ensures match op
            case SetFillColor(_) => Step(g, true, m, op).None?
            case SetFillTransparent => Step(g, true, m, op).None?
            case SetStrokeColor(_) => Step(g, true, m, op).None?
            case SetStrokeTransparent => Step(g, true, m, op).None?
            case SetFont(_, _, _) => Step(g, true, m, op).None?
            case ShowText(_) => Step(g, true, m, op).None?
            case PaintImage(_) => Step(g, true, m, op).None?
            case CharBounds(_) => true
            case SetGState(_) => true
            case _ => Step(g, true, m, op) == Step(g, false, m, op)
    ensures op.CharBounds? ==>
              && Step(g, false, m, op).None?
              && Step(g, true, m, op)
                 == Some(m.(state := m.state.(clip := Cut(m.state.clip, op.path, m.state.matrix, Winding))))
    ensures op.Unsupported? ==> Step(g, true, m, op).None? && Step(g, false, m, op).None?
    ensures op.Ignored? ==> Step(g, true, m, op) == Step(g, false, m, op) == Some(m)
  {
  }

  // ---------------------------------------------------------------- blocks

  predicate Opens(op: Op) { op.Save? || op.FormBegin? }

  predicate Closes(op: Op) { op.Restore? || op.FormEnd? }

  /** How many blocks are open after these operators; none when one was closed that was not open. */
  function Depth(ops: seq<Op>): Option<nat> {
    if ops == [] then Some(0)
    else
      var before, op := Depth(ops[..|ops| - 1]), ops[|ops| - 1];
      if before.None? then None
      else if Opens(op) then Some(before.value + 1)
      else if Closes(op) then (if before.value == 0 then None else Some(before.value - 1))
      else before
  }

  /** Everything opened is closed again, and nothing else is. */
  predicate Balanced(ops: seq<Op>) { Depth(ops) == Some(0) }

  /** Inside a block the stack below it is out of reach. */
  lemma {:induction false} StackBelow(g: Geometry, glyphMode: bool, m: Machine, ops: seq<Op>)
    requires Depth(ops).Some? && Run(g, glyphMode, m, ops).Some?
    ensures var end := Run(g, glyphMode, m, ops).value;
            |end.stack| == |m.stack| + Depth(ops).value && m.stack <= end.stack
  {
    if ops != [] {
      StackBelow(g, glyphMode, m, ops[..|ops| - 1]);
      StepStack(g, glyphMode, Run(g, glyphMode, m, ops[..|ops| - 1]).value, ops[|ops| - 1]);
    }
  }

  lemma {:induction false} StepStack(g: Geometry, glyphMode: bool, m: Machine, op: Op)
    requires Step(g, glyphMode, m, op).Some?
    ensures var next := Step(g, glyphMode, m, op).value;
            && (Opens(op) ==> next.stack == m.stack + [m.state])
            && (Closes(op) ==> m.stack != [] && next.stack == m.stack[..|m.stack| - 1]
                               && next.state == m.stack[|m.stack| - 1])
            && (!Opens(op) && !Closes(op) ==> next.stack == m.stack)
  {
  }

  /** The clip that waits for a path is set by a clip operator and taken by the next path. */
  function PendingAfter(pending: Option<FillRule>, ops: seq<Op>): Option<FillRule> {
    if ops == [] then pending
    else
      match ops[|ops| - 1]
      case ClipNext(rule) => Some(rule)
      case ConstructPath(_, _) => None
      case _ => PendingAfter(pending, ops[..|ops| - 1])
  }

  lemma {:induction false} PendingIs(g: Geometry, glyphMode: bool, m: Machine, ops: seq<Op>)
    requires Run(g, glyphMode, m, ops).Some?
    ensures Run(g, glyphMode, m, ops).value.pending == PendingAfter(m.pending, ops)
  {
    if ops != [] { PendingIs(g, glyphMode, m, ops[..|ops| - 1]); }
  }

  /**
   Graphics state is restored (section 8.4.2 of ISO 32000-1): a balanced block between a save and a restore,
   or a form's begin and end, leaves the state and the stack as they were. A waiting clip is not part of the
   state: it is what the last clip or path operator of the block left, if there was one.
   */
  lemma BlockRestores(g: Geometry, glyphMode: bool, m: Machine, open: Op, body: seq<Op>, close: Op)
    requires Opens(open) && Balanced(body) && Closes(close)
    requires Run(g, glyphMode, m, [open] + body + [close]).Some?
    ensures var end := Run(g, glyphMode, m, [open] + body + [close]).value;
            && end.state == m.state && end.stack == m.stack
            && end.pending == PendingAfter(m.pending, [open] + body + [close])
  {
    var block := [open] + body + [close];
    RunAppend(g, glyphMode, m, [open] + body, [close]);
    RunAppend(g, glyphMode, m, [open], body);
    RunOne(g, glyphMode, m, open);
    var opened' := Step(g, glyphMode, m, open).value;
    StepStack(g, glyphMode, m, open);
    StackBelow(g, glyphMode, opened', body);
    var inside := Run(g, glyphMode, opened', body).value;
    RunOne(g, glyphMode, inside, close);
    StepStack(g, glyphMode, inside, close);
    assert inside.stack == opened'.stack;
    PendingIs(g, glyphMode, m, block);
  }

  /** So the whole interpreter state is restored exactly when the block leaves the waiting clip as it was. */
  lemma BlockRestoresAll(g: Geometry, glyphMode: bool, m: Machine, open: Op, body: seq<Op>, close: Op)
    requires Opens(open) && Balanced(body) && Closes(close)
    requires Run(g, glyphMode, m, [open] + body + [close]).Some?
    ensures var end := Run(g, glyphMode, m, [open] + body + [close]).value;
            (end == m.(marks := end.marks, images := end.images, inks := end.inks))
            <==> PendingAfter(m.pending, [open] + body + [close]) == m.pending
  {
    BlockRestores(g, glyphMode, m, open, body, close);
  }

  /** A path that paints nothing, as a clip needs. */
  function Bare(path: Path): Op { ConstructPath(path, Paint(false, false)) }

  lemma BareStep(g: Geometry, m: Machine, path: Path)
    ensures Step(g, false, m, Bare(path)) == Some(Clipped(m, path))
  {
  }

  /**
   A clip that waits across a restore: the page is accepted, and the path after the restored block is clipped. With an
   empty block in its place it is not.
   */
  lemma WaitingClipEscapes(g: Geometry, path: Path)
    ensures var m := Start(IDENTITY);
            && Accepted(g, false, m, [Save, ClipNext(Winding), Restore, Bare(path)])
               == Some(m.(state := m.state.(clip := Cut(Page, path, IDENTITY, Winding))))
            && Accepted(g, false, m, [Save, Restore, Bare(path)]) == Some(m)
  {
    var m := Start(IDENTITY);
    var saved := m.(stack := [m.state]);
    var waiting := m.(pending := Some(Winding));
    assert [] + [m.state] == [m.state] && [m.state][..0] == [];
    RunOne(g, false, m, Save);
    RunAppend(g, false, m, [Save], [ClipNext(Winding)]);
    RunOne(g, false, saved, ClipNext(Winding));
    assert [Save] + [ClipNext(Winding)] == [Save, ClipNext(Winding)];
    RunAppend(g, false, m, [Save, ClipNext(Winding)], [Restore]);
    RunOne(g, false, saved.(pending := Some(Winding)), Restore);
    assert [Save, ClipNext(Winding)] + [Restore] == [Save, ClipNext(Winding), Restore];
    BareAfter(g, m, [Save, ClipNext(Winding), Restore], waiting, path);
    assert [Save, ClipNext(Winding), Restore] + [Bare(path)] == [Save, ClipNext(Winding), Restore, Bare(path)];
    RunAppend(g, false, m, [Save], [Restore]);
    RunOne(g, false, saved, Restore);
    assert [Save] + [Restore] == [Save, Restore];
    BareAfter(g, m, [Save, Restore], m, path);
    assert [Save, Restore] + [Bare(path)] == [Save, Restore, Bare(path)];
  }

  lemma BareAfter(g: Geometry, m: Machine, ops: seq<Op>, end: Machine, path: Path)
    requires Run(g, false, m, ops) == Some(end)
    ensures Run(g, false, m, ops + [Bare(path)]) == Some(Clipped(end, path))
  {
    RunAppend(g, false, m, ops, [Bare(path)]);
    RunOne(g, false, end, Bare(path));
    BareStep(g, end, path);
  }

  // ---------------------------------------------------------------- the matrix

  /** Composing matrices is associative, with the identity on both sides. */
  lemma MultiplyLaws(m: Matrix, n: Matrix, o: Matrix)
    ensures Multiply(Multiply(m, n), o) == Multiply(m, Multiply(n, o))
    ensures Multiply(m, IDENTITY) == m && Multiply(IDENTITY, m) == m
  {
    FirstRow(m, n, o);
    SecondRow(m, n, o);
    UnitLaws(m);
  }

  lemma UnitLaws(m: Matrix)
    ensures Multiply(m, IDENTITY) == m && Multiply(IDENTITY, m) == m
  {
  }

  lemma FirstRow(m: Matrix, n: Matrix, o: Matrix)
    ensures var left, right := Multiply(Multiply(m, n), o), Multiply(m, Multiply(n, o));
            left.a == right.a && left.c == right.c && left.e == right.e
  {
    Row(m.a, m.c, n.a, n.b, n.c, n.d, o.a, o.b);
    Row(m.a, m.c, n.a, n.b, n.c, n.d, o.c, o.d);
    Row(m.a, m.c, n.a, n.b, n.c, n.d, o.e, o.f);
    Offset(m.a, m.c, Dot(n.a, n.c, o.e, o.f), n.e, Dot(n.b, n.d, o.e, o.f), n.f);
  }

  lemma SecondRow(m: Matrix, n: Matrix, o: Matrix)
    ensures var left, right := Multiply(Multiply(m, n), o), Multiply(m, Multiply(n, o));
            left.b == right.b && left.d == right.d && left.f == right.f
  {
    Row(m.b, m.d, n.a, n.b, n.c, n.d, o.a, o.b);
    Row(m.b, m.d, n.a, n.b, n.c, n.d, o.c, o.d);
    Row(m.b, m.d, n.a, n.b, n.c, n.d, o.e, o.f);
    Offset(m.b, m.d, Dot(n.a, n.c, o.e, o.f), n.e, Dot(n.b, n.d, o.e, o.f), n.f);
  }

  /** A row times a matrix times a column, grouped either way. */
  lemma Row(p: real, q: real, a: real, b: real, c: real, d: real, x: real, y: real)
    ensures Dot(Dot(p, q, a, b), Dot(p, q, c, d), x, y) == Dot(p, q, Dot(a, c, x, y), Dot(b, d, x, y))
  {
    Spread(p, a, q, b, x);
    Spread(p, c, q, d, y);
    Distribute(p, a * x, c * y);
    Distribute(q, b * x, d * y);
  }

  lemma Offset(p: real, q: real, x: real, e: real, y: real, f: real)
    ensures Dot(p, q, x + e, y + f) == Dot(p, q, x, y) + Dot(p, q, e, f)
  {
    Distribute(p, x, e);
    Distribute(q, y, f);
  }

  lemma Spread(p: real, a: real, q: real, b: real, x: real)
    ensures (p * a + q * b) * x == p * (a * x) + q * (b * x)
  {
    assert (p * a + q * b) * x == (p * a) * x + (q * b) * x;
    Reassociate(p, a, x);
    Reassociate(q, b, x);
  }

  lemma Reassociate(p: real, a: real, x: real)
    ensures (p * a) * x == p * (a * x)
  {
  }

  lemma Distribute(p: real, x: real, y: real)
    ensures p * (x + y) == p * x + p * y
  {
  }

  // ---------------------------------------------------------------- where text is shown

  /** A matrix acts on points, and products act one after the other. */
  lemma PlaceActs(m: Matrix, n: Matrix, x: real, y: real)
    ensures Place(IDENTITY, x, y) == (x, y)
    ensures var (u, v) := Place(n, x, y); Place(Multiply(m, n), x, y) == Place(m, u, v)
  {
    var there := Matrix(0.0, 0.0, 0.0, 0.0, x, y);
    MultiplyLaws(m, n, there);
    PlaceIsProduct(Multiply(m, n), there);
    PlaceIsProduct(n, there);
    PlaceIsProduct(m, Multiply(n, there));
  }

  /** A point is moved as the last column of a matrix is. */
  lemma PlaceIsProduct(m: Matrix, n: Matrix)
    ensures Place(m, n.e, n.f) == (Multiply(m, n).e, Multiply(m, n).f)
  {
    hide Dot;
  }

  /** Text operators change the state alone, and none of them is refused. */
  lemma TextStep(g: Geometry, glyphMode: bool, m: Machine, op: Op)
    requires op.BeginText? || op.SetTextMatrix? || op.MoveText? || op.NextLine? || op.SetText?
    ensures StateStep(glyphMode, m.state, op).Some?
    ensures Step(g, glyphMode, m, op) == Some(m.(state := StateStep(glyphMode, m.state, op).value))
  {
  }

  function TextState(s: State, op: Op): State
    requires op.BeginText? || op.SetTextMatrix? || op.MoveText? || op.NextLine? || op.SetText?
  {
    StateStep(false, s, op).value
  }

  /** Section 9.4.2 of ISO 32000-1: text starts at the origin of its matrix, and moves add up from line to line. */
  lemma LinesAddUp(s: State, t: Matrix, x: real, y: real, leads: bool)
    ensures TextState(s, BeginText) == TextState(s, SetTextMatrix(IDENTITY))
    ensures var moved := TextState(TextState(s, SetTextMatrix(t)), MoveText(x, y, leads));
            && moved.textMatrix == t
            && moved.position == s.position.(lineX := x, lineY := y, x := x, y := y,
                                             leading := if leads then -y else s.position.leading)
            && moved == s.(textMatrix := t, position := moved.position)
  {
  }

  /** The next move starts at the line's start, and the next line lies one leading below. */
  lemma LinesGoOn(s: State, x: real, y: real, leading: real)
    ensures TextState(s, MoveText(x, y, false)).position
            == s.position.(lineX := s.position.lineX + x, lineY := s.position.lineY + y, x := s.position.lineX + x,
                           y := s.position.lineY + y)
    ensures var next := TextState(TextState(s, SetText(Leading, leading)), NextLine);
            && next.position == s.position.(leading := leading, lineY := s.position.lineY - leading,
                                            x := s.position.lineX, y := s.position.lineY - leading)
            && next == s.(position := next.position)
  {
  }

  /**
   Section 9.4.4 of ISO 32000-1: an adjustment in thousandths and the glyph behind it advance the text by
   ((width - adjustment / 1000) * size + gaps) * scale, the word gap counting for spaces, and the scale in percent.
   */
  lemma GlyphAdvance(p: TextPosition, size: real, amount: real, width: real, space: bool, gap: real, word: real,
          percent: real)
    ensures var q := SetKey(SetKey(SetKey(p, CharGap, gap), WordGap, word), Scale, percent);
            Advanced(q, size, [Kern(amount), Shape(width, space)]).x
            == if size == 0.0 then p.x
               else p.x + (-amount * size / 1000.0) * (percent / 100.0)
                    + (width * size * p.unit + (gap + if space then word else 0.0)) * (percent / 100.0)
  {
    var q := SetKey(SetKey(SetKey(p, CharGap, gap), WordGap, word), Scale, percent);
    var both := [Kern(amount), Shape(width, space)];
    assert both[..1] == [Kern(amount)] && [Kern(amount)][..0] == [];
    assert Advanced(q, size, [Kern(amount)]).x == p.x + Advance(q, size, Kern(amount));
    assert Advanced(q, size, both).x
           == Advanced(q, size, [Kern(amount)]).x + Advance(q, size, Shape(width, space));
    AdvanceMeans(q, size, amount, width, space);
  }

  /** One step of the position, for every size: a negative one turns the direction but not the gaps. */
  lemma AdvanceMeans(q: TextPosition, size: real, amount: real, width: real, space: bool)
    ensures Advance(q, size, Kern(amount)) == (-amount * size / 1000.0) * q.scale
    ensures Advance(q, size, Shape(width, space))
            == if size == 0.0 then 0.0
               else (width * size * q.unit + (q.charGap + if space then q.wordGap else 0.0)) * q.scale
  {
    if size < 0.0 {
      var gaps, w := q.charGap + (if space then q.wordGap else 0.0), width * -size * q.unit;
      assert Advance(q, size, Shape(width, space)) == (w + -1.0 * gaps) * q.scale * -1.0;
      assert (w + -1.0 * gaps) * q.scale * -1.0 == (-w + gaps) * q.scale;
      assert -w == width * size * q.unit;
    }
  }

  /** Text is inked in the font and fill color of that moment, raised by the rise, and only visibly and opaquely. */
  lemma TextMeans(g: Geometry, m: Machine, rise: real, width: real, space: bool)
    ensures var raised := Step(g, false, m, SetText(Rise, rise)).value;
            var next := Step(g, false, raised, ShowText([Shape(width, space)]));
            && (next.Some? <==> m.state.alpha == 1.0 && !m.state.transparent)
            && (next.Some? ==>
                  && next.value.inks == m.inks + [Ink(m.state.fontId, m.state.font, m.state.color,
                       Place(Multiply(m.state.matrix, m.state.textMatrix), m.state.position.x,
                             m.state.position.y + rise))]
                  && next.value.state.position.y == m.state.position.y
                  && next.value.state.position.rise == rise)
  {
  }

  /** Where an ink starts behind adjustments: after each of them, in thousandths of the size, under the scale. */
  lemma StartMeans(p: TextPosition, size: real, x: real, amount: real, rest: seq<Glyph>)
    ensures StartX(p, size, x, [Kern(amount)] + rest) == StartX(p, size, x - amount * size / 1000.0 * p.scale, rest)
    ensures rest != [] && rest[0].Shape? ==> StartX(p, size, x, rest) == x
    ensures StartX(p, size, x, []) == x
  {
    var glyphs := [Kern(amount)] + rest;
    assert glyphs[0] == Kern(amount) && glyphs[1..] == rest;
    assert StartX(p, size, x, glyphs) == StartX(p, size, x - glyphs[0].amount * size / 1000.0 * p.scale, glyphs[1..]);
  }

  /** A font brings its own unit, and a fresh page measures text in thousandths. */
  lemma FontMeans(g: Geometry, m: Machine, viewport: Matrix, id: string, found: Font, size: real)
    ensures Step(g, false, m, SetFont(id, found, size))
            == Some(m.(state := m.state.(fontId := id, font := Some(found), size := size,
                                         position := m.state.position.(unit := found.unit))))
    ensures Start(viewport).state.position.unit == 0.001 && Start(viewport).state.position.scale == 1.0
    ensures Start(viewport).state.textMatrix == IDENTITY
  {
  }

  function Product(transforms: seq<Matrix>): Matrix {
    if transforms == [] then IDENTITY
    else Multiply(Product(transforms[..|transforms| - 1]), transforms[|transforms| - 1])
  }

  /** The transforms in force, and those that each open block will bring back. */
  datatype Scopes = Scopes(current: seq<Matrix>, outer: seq<seq<Matrix>>)

  /** A transform belongs to the innermost open block and goes with it. */
  function ScopesAfter(ops: seq<Op>): Option<Scopes> {
    if ops == [] then Some(Scopes([], []))
    else
      var before := ScopesAfter(ops[..|ops| - 1]);
      if before.None? then None else ScopesStep(before.value, ops[|ops| - 1])
  }

  function ScopesStep(s: Scopes, op: Op): Option<Scopes> {
    match op
    case Transform(m) => Some(s.(current := s.current + [m]))
    case Save => Some(s.(outer := s.outer + [s.current]))
    case FormBegin(m, _) => Some(Scopes(if m.Some? then s.current + [m.value] else s.current, s.outer + [s.current]))
    case Restore => LeaveScope(s)
    case FormEnd => LeaveScope(s)
    case _ => Some(s)
  }

  function LeaveScope(s: Scopes): Option<Scopes> {
    if s.outer == [] then None else Some(Scopes(s.outer[|s.outer| - 1], s.outer[..|s.outer| - 1]))
  }

  /** State and stack hold the products of these transforms, after the base matrix. */
  ghost predicate HoldsProducts(base: Matrix, m: Machine, s: Scopes) {
    && m.state.matrix == Multiply(base, Product(s.current))
    && |m.stack| == |s.outer|
    && forall i :: 0 <= i < |m.stack| ==> m.stack[i].matrix == Multiply(base, Product(s.outer[i]))
  }

  lemma ProductStep(base: Matrix, transforms: seq<Matrix>, m: Matrix)
    ensures Multiply(Multiply(base, Product(transforms)), m) == Multiply(base, Product(transforms + [m]))
  {
    assert (transforms + [m])[..|transforms|] == transforms;
    MultiplyLaws(base, Product(transforms), m);
  }

  /** Operators on the state alone touch the matrix only to transform it, and the font only to set it. */
  lemma {:induction false} StateKeeps(glyphMode: bool, s: State, op: Op)
    requires StateStep(glyphMode, s, op).Some?
    ensures var next := StateStep(glyphMode, s, op).value;
            && next.matrix == (if op.Transform? then Multiply(s.matrix, op.m) else s.matrix)
            && next.fontId == (if op.SetFont? then op.id else s.fontId)
  {
    if op.SetGState? { EntriesKeep(glyphMode, s, op.entries); }
  }

  lemma {:induction false} EntriesKeep(glyphMode: bool, s: State, entries: seq<GEntry>)
    requires ApplyEntries(glyphMode, s, entries).Some?
    ensures ApplyEntries(glyphMode, s, entries).value.matrix == s.matrix
    ensures ApplyEntries(glyphMode, s, entries).value.fontId == s.fontId
  {
    if entries != [] { EntriesKeep(glyphMode, s, entries[..|entries| - 1]); }
  }

  lemma {:induction false} PathKeeps(g: Geometry, m: Machine, path: Path, paint: Paint)
    requires PathStep(g, m, path, paint).Some?
    ensures var next := PathStep(g, m, path, paint).value;
            next.state.matrix == m.state.matrix && next.state.fontId == m.state.fontId && next.inks == m.inks
  {
  }

  /** Matrix, font and shown fonts after an operator outside the nesting. */
  lemma {:induction false} StepKeeps(g: Geometry, glyphMode: bool, m: Machine, op: Op)
    requires Step(g, glyphMode, m, op).Some? && !Opens(op) && !Closes(op)
    ensures var next := Step(g, glyphMode, m, op).value;
            && next.state.matrix == (if op.Transform? then Multiply(m.state.matrix, op.m) else m.state.matrix)
            && next.state.fontId == (if op.SetFont? then op.id else m.state.fontId)
            && next.inks == (if op.ShowText? then m.inks + [InkOf(m.state, op.glyphs)] else m.inks)
  {
    if op.ConstructPath? {
      PathKeeps(g, m, op.path, op.paint);
    } else if !op.ClipNext? && !op.PaintImage? && !op.ShowText? {
      StateKeeps(glyphMode, m.state, op);
    }
  }

  /** And after one that opens or closes a block. */
  lemma {:induction false} NestingKeeps(g: Geometry, glyphMode: bool, m: Machine, op: Op)
    requires Step(g, glyphMode, m, op).Some? && (Opens(op) || Closes(op))
    ensures var next := Step(g, glyphMode, m, op).value;
            && next.inks == m.inks
            && (Opens(op) ==> next.state.fontId == m.state.fontId)
            && (Opens(op) ==> next.state.matrix == if op.FormBegin? && op.matrix.Some?
                                                   then Multiply(m.state.matrix, op.matrix.value)
                                                   else m.state.matrix)
  {
  }

  lemma {:induction false} ProductsStep(g: Geometry, glyphMode: bool, base: Matrix, m: Machine, s: Scopes, op: Op)
    requires HoldsProducts(base, m, s) && Step(g, glyphMode, m, op).Some?
    ensures ScopesStep(s, op).Some? && HoldsProducts(base, Step(g, glyphMode, m, op).value, ScopesStep(s, op).value)
  {
    var next := Step(g, glyphMode, m, op).value;
    StepStack(g, glyphMode, m, op);
    if Opens(op) {
      NestingKeeps(g, glyphMode, m, op);
      if op.FormBegin? && op.matrix.Some? { ProductStep(base, s.current, op.matrix.value); }
      PushHolds(base, m, s, next, ScopesStep(s, op).value.current);
    } else if Closes(op) {
      PopHolds(base, m, s, next);
    } else {
      StepKeeps(g, glyphMode, m, op);
      if op.Transform? { ProductStep(base, s.current, op.m); }
    }
  }

  lemma {:induction false} PushHolds(base: Matrix, m: Machine, s: Scopes, next: Machine, current: seq<Matrix>)
    requires HoldsProducts(base, m, s) && next.stack == m.stack + [m.state]
    requires next.state.matrix == Multiply(base, Product(current))
    ensures HoldsProducts(base, next, Scopes(current, s.outer + [s.current]))
  {
  }

  lemma {:induction false} PopHolds(base: Matrix, m: Machine, s: Scopes, next: Machine)
    requires HoldsProducts(base, m, s) && m.stack != []
    requires next.stack == m.stack[..|m.stack| - 1] && next.state == m.stack[|m.stack| - 1]
    ensures LeaveScope(s).Some? && HoldsProducts(base, next, LeaveScope(s).value)
  {
  }

  /** After every accepted prefix, the matrix is the viewport's times the product of the enclosing transforms. */
  lemma {:induction false} MatrixIsProduct(g: Geometry, glyphMode: bool, viewport: Matrix, ops: seq<Op>)
    requires Run(g, glyphMode, Start(viewport), ops).Some?
    ensures ScopesAfter(ops).Some?
            && HoldsProducts(viewport, Run(g, glyphMode, Start(viewport), ops).value, ScopesAfter(ops).value)
  {
    if ops == [] {
      StartHolds(viewport);
    } else {
      var before := ops[..|ops| - 1];
      MatrixIsProduct(g, glyphMode, viewport, before);
      ProductsStep(g, glyphMode, viewport, Run(g, glyphMode, Start(viewport), before).value,
          ScopesAfter(before).value, ops[|ops| - 1]);
    }
  }

  lemma StartHolds(viewport: Matrix)
    ensures HoldsProducts(viewport, Start(viewport), Scopes([], []))
  {
    UnitLaws(viewport);
  }

  // ---------------------------------------------------------------- the font walker

  /** The lighter interpreter: the font, its stack, and the fonts that text was shown in. */
  datatype Walker = Walker(fontId: string, stack: seq<string>, shown: seq<string>)

  function WalkStep(w: Walker, op: Op): Option<Walker> {
    if Opens(op) then Some(w.(stack := w.stack + [w.fontId]))
    else if Closes(op) then
      if w.stack == [] then None else Some(w.(fontId := w.stack[|w.stack| - 1], stack := w.stack[..|w.stack| - 1]))
    else if op.SetFont? then Some(w.(fontId := op.id))
    else if op.ShowText? then (if w.fontId == "" then None else Some(w.(shown := w.shown + [w.fontId])))
    else Some(w)
  }

  function Walk(ops: seq<Op>): Option<Walker> {
    if ops == [] then Some(Walker("", [], []))
    else
      var before := Walk(ops[..|ops| - 1]);
      if before.None? then None else WalkStep(before.value, ops[|ops| - 1])
  }

  function WalkPage(ops: seq<Op>): Option<Walker> {
    var end := Walk(ops);
    if end.None? || end.value.stack != [] then None else end
  }

  function FontIds(states: seq<State>): (ids: seq<string>)
    ensures |ids| == |states| && forall i :: 0 <= i < |ids| ==> ids[i] == states[i].fontId
  {
    if states == [] then [] else FontIds(states[..|states| - 1]) + [states[|states| - 1].fontId]
  }

  function InkFonts(inks: seq<Ink>): (ids: seq<string>)
    ensures |ids| == |inks| && forall i :: 0 <= i < |ids| ==> ids[i] == inks[i].fontId
  {
    if inks == [] then [] else InkFonts(inks[..|inks| - 1]) + [inks[|inks| - 1].fontId]
  }

  /** What the walker knows of a machine. */
  function Seen(m: Machine): Walker { Walker(m.state.fontId, FontIds(m.stack), InkFonts(m.inks)) }

  lemma InkAdded(inks: seq<Ink>, ink: Ink)
    ensures InkFonts(inks + [ink]) == InkFonts(inks) + [ink.fontId]
  {
    assert (inks + [ink])[..|inks|] == inks;
  }

  lemma {:induction false} StackFonts(g: Geometry, m: Machine, op: Op)
    requires Step(g, false, m, op).Some?
    ensures var next := Step(g, false, m, op).value;
            FontIds(next.stack) == if Opens(op) then FontIds(m.stack) + [m.state.fontId]
                                   else if Closes(op) then FontIds(m.stack)[..|m.stack| - 1]
                                   else FontIds(m.stack)
    ensures Closes(op) ==> m.stack != [] && Step(g, false, m, op).value.state.fontId == FontIds(m.stack)[|m.stack| - 1]
  {
    StepStack(g, false, m, op);
    if Opens(op) { assert (m.stack + [m.state])[..|m.stack|] == m.stack; }
  }

  /** What one step does to everything that the walker knows. */
  lemma {:induction false} StepFonts(g: Geometry, m: Machine, op: Op)
    requires Step(g, false, m, op).Some?
    ensures var next := Step(g, false, m, op).value;
            && FontIds(next.stack) == (if Opens(op) then FontIds(m.stack) + [m.state.fontId]
                                       else if Closes(op) then FontIds(m.stack)[..|m.stack| - 1] else FontIds(m.stack))
            && (Closes(op) ==> m.stack != [] && next.state.fontId == FontIds(m.stack)[|m.stack| - 1])
            && (!Closes(op) ==> next.state.fontId == if op.SetFont? then op.id else m.state.fontId)
            && InkFonts(next.inks) == (if op.ShowText? then InkFonts(m.inks) + [m.state.fontId] else InkFonts(m.inks))
  {
    StackFonts(g, m, op);
    if Opens(op) || Closes(op) {
      NestingKeeps(g, false, m, op);
    } else {
      StepKeeps(g, false, m, op);
      if op.ShowText? { InkAdded(m.inks, InkOf(m.state, op.glyphs)); }
    }
  }

  lemma {:induction false} FontStep(g: Geometry, m: Machine, op: Op)
    requires Step(g, false, m, op).Some?
    ensures WalkStep(Seen(m), op)
            == if op.ShowText? && m.state.fontId == "" then None else Some(Seen(Step(g, false, m, op).value))
    ensures InkFonts(Step(g, false, m, op).value.inks)
            == if op.ShowText? then InkFonts(m.inks) + [m.state.fontId] else InkFonts(m.inks)
  {
    StepFonts(g, m, op);
    var next := Step(g, false, m, op).value;
    Walks(m.state.fontId, FontIds(m.stack), InkFonts(m.inks), op, next.state.fontId, FontIds(next.stack),
        InkFonts(next.inks));
  }

  lemma Walks(font: string, stack: seq<string>, shown: seq<string>, op: Op, font': string, stack': seq<string>,
          shown': seq<string>)
    requires stack' == if Opens(op) then stack + [font]
                       else if Closes(op) && stack != [] then stack[..|stack| - 1]
                       else stack
    requires Closes(op) ==> stack != [] && font' == stack[|stack| - 1]
    requires !Closes(op) ==> font' == if op.SetFont? then op.id else font
    requires shown' == if op.ShowText? then shown + [font] else shown
    ensures WalkStep(Walker(font, stack, shown), op)
            == if op.ShowText? && font == "" then None else Some(Walker(font', stack', shown'))
  {
  }

  /**
   The two interpreters agree: over every run that the full one accepts, the walker is in the same fonts and
   saw the same font at every shown text. It stops only at a text shown before any font was set.
   */
  lemma {:induction false} WalkerAgrees(g: Geometry, viewport: Matrix, ops: seq<Op>)
    requires Run(g, false, Start(viewport), ops).Some?
    ensures var m := Run(g, false, Start(viewport), ops).value;
            Walk(ops) == if "" in InkFonts(m.inks) then None else Some(Seen(m))
  {
    if ops != [] {
      var before := ops[..|ops| - 1];
      WalkerAgrees(g, viewport, before);
      FontStep(g, Run(g, false, Start(viewport), before).value, ops[|ops| - 1]);
    }
  }

  /** On pages that the full interpreter accepts, the walker accepts exactly when every text was shown in a font. */
  lemma WalkerAccepts(g: Geometry, viewport: Matrix, ops: seq<Op>)
    requires Accepted(g, false, Start(viewport), ops).Some?
    ensures var m := Accepted(g, false, Start(viewport), ops).value;
            WalkPage(ops) == if "" in InkFonts(m.inks) then None else Some(Walker(m.state.fontId, [], InkFonts(m.inks)))
  {
    WalkerAgrees(g, viewport, ops);
  }

  /** A page that shows a text before any font: the full interpreter accepts it, and the walker does not. */
  lemma WalkerStopsWithoutFont(g: Geometry, viewport: Matrix)
    ensures Accepted(g, false, Start(viewport), [ShowText([])]).Some? && WalkPage([ShowText([])]).None?
  {
    RunOne(g, false, Start(viewport), ShowText([]));
    assert [ShowText([])][..0] == [];
  }

  /** The walker's loop, over a font, a stack of fonts, and the fonts shown. */
  method GlyphFonts(ops: seq<Op>) returns (shown: Option<seq<string>>)
    ensures shown == if WalkPage(ops).None? then None else Some(WalkPage(ops).value.shown)
  {
    var fontId: string, stack: seq<string>, fonts: seq<string> := "", [], [];
    for i := 0 to |ops|
      invariant Walk(ops[..i]) == Some(Walker(fontId, stack, fonts))
    {
      assert ops[..i + 1][..i] == ops[..i];
      if (Closes(ops[i]) && stack == []) || (ops[i].ShowText? && fontId == "") {
        WalkRefused(ops, i + 1);
        return None;
      }
      if Opens(ops[i]) {
        stack := stack + [fontId];
      } else if Closes(ops[i]) {
        fontId, stack := stack[|stack| - 1], stack[..|stack| - 1];
      } else if ops[i].SetFont? {
        fontId := ops[i].id;
      } else if ops[i].ShowText? {
        fonts := fonts + [fontId];
      }
    }
    assert ops[..|ops|] == ops;
    return if stack != [] then None else Some(fonts);
  }

  lemma {:induction false} WalkRefused(ops: seq<Op>, n: nat)
    requires n <= |ops| && Walk(ops[..n]).None?
    ensures Walk(ops).None?
  {
    if n < |ops| {
      assert ops[..|ops| - 1][..n] == ops[..n];
      WalkRefused(ops[..|ops| - 1], n);
    } else {
      assert ops[..n] == ops;
    }
  }
}
