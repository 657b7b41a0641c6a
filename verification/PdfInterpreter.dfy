/**
 The interpreter on objects. The current state is updated in place, and so are the stroke and the text
 position it holds; saving copies all three, so that nothing saved is reached by a later update.
 */
module PdfInterpreter {
  import opened Options
  import opened PdfPaint

  class StrokeObject {
    var value: Stroke

    constructor (value: Stroke)
      ensures this.value == value
    {
      this.value := value;
    }

    method Set(s: StrokeSetting) returns (ok: bool)
      modifies this
      ensures ok <==> ApplySetting(old(value), s).Some?
      ensures ok ==> value == ApplySetting(old(value), s).value
    {
      match s {
        case Width(w) =>
          if w < 0.0 { return false; }
          value := value.(width := w);
        case Cap(cap) =>
          if !(0 <= cap <= 2) { return false; }
          value := value.(cap := cap);
        case Join(join) =>
          if !(0 <= join <= 2) { return false; }
          value := value.(join := join);
        case MiterLimit(limit) =>
          if limit < 1.0 { return false; }
          value := value.(miterLimit := limit);
        case Dash(dashed) =>
          value := value.(dashed := dashed);
        case StrokeAlpha(alpha) =>
          if !(0.0 <= alpha <= 1.0) { return false; }
          value := value.(alpha := alpha);
      }
      return true;
    }
  }

  lemma AdvanceIgnoresX(p: TextPosition, q: TextPosition, size: real, glyph: Glyph)
    requires p == q.(x := p.x)
    ensures Advance(p, size, glyph) == Advance(q, size, glyph)
  {
  }

  class PositionObject {
    var value: TextPosition

    constructor (value: TextPosition)
      ensures this.value == value
    {
      this.value := value;
    }

    method MoveBy(x: real, y: real)
      modifies this
      ensures value == Move(old(value), x, y)
    {
      value := value.(lineX := value.lineX + x);
      value := value.(lineY := value.lineY + y);
      value := value.(x := value.lineX, y := value.lineY);
    }

    /** The text position moves glyph by glyph. */
    method Show(size: real, glyphs: seq<Glyph>)
      modifies this
      ensures value == Advanced(old(value), size, glyphs)
    {
      for i := 0 to |glyphs|
        invariant value == Advanced(old(value), size, glyphs[..i])
      {
        assert glyphs[..i + 1][..i] == glyphs[..i];
        AdvanceIgnoresX(value, old(value), size, glyphs[i]);
        value := value.(x := value.x + Advance(value, size, glyphs[i]));
      }
      assert glyphs[..|glyphs|] == glyphs;
    }
  }

  class StateObject {
    var matrix: Matrix
    var clip: Clip
    var color: Color
    var alpha: real
    var fontId: string
    var font: Option<Font>
    var size: real
    var textMatrix: Matrix
    var transparent: bool
    const stroke: StrokeObject
    const position: PositionObject

    ghost function View(): State
      reads this, stroke, position
    {
      State(matrix, clip, color, alpha, fontId, font, size, textMatrix, transparent, stroke.value, position.value)
    }

    constructor Of(s: State)
      ensures View() == s && fresh(stroke) && fresh(position)
    {
      matrix, clip, color, alpha := s.matrix, s.clip, s.color, s.alpha;
      fontId, font, size, textMatrix, transparent := s.fontId, s.font, s.size, s.textMatrix, s.transparent;
      stroke := new StrokeObject(s.stroke);
      position := new PositionObject(s.position);
    }

    /** A copy that shares no object with the original. */
    constructor Copy(from: StateObject)
      ensures View() == from.View() && fresh(stroke) && fresh(position)
    {
      matrix, clip, color, alpha := from.matrix, from.clip, from.color, from.alpha;
      fontId, font, size := from.fontId, from.font, from.size;
      textMatrix, transparent := from.textMatrix, from.transparent;
      stroke := new StrokeObject(from.stroke.value);
      position := new PositionObject(from.position.value);
    }

    method SetGraphicsState(glyphMode: bool, entries: seq<GEntry>) returns (ok: bool)
      modifies this`alpha, stroke
      ensures ok <==> ApplyEntries(glyphMode, old(View()), entries).Some?
      ensures ok ==> View() == ApplyEntries(glyphMode, old(View()), entries).value
    {
      ok := true;
      for i := 0 to |entries|
        invariant ok <==> ApplyEntries(glyphMode, old(View()), entries[..i]).Some?
        invariant ok ==> View() == ApplyEntries(glyphMode, old(View()), entries[..i]).value
      {
        assert entries[..i + 1][..i] == entries[..i];
        if ok { ok := SetEntry(glyphMode, entries[i]); }
      }
      assert entries[..|entries|] == entries;
    }

    method SetEntry(glyphMode: bool, entry: GEntry) returns (ok: bool)
      modifies this`alpha, stroke
      ensures ok <==> ApplyEntry(glyphMode, old(View()), entry).Some?
      ensures ok ==> View() == ApplyEntry(glyphMode, old(View()), entry).value
    {
      match entry
      case FillAlpha(a) =>
        alpha := a;
        ok := 0.0 <= alpha <= 1.0 && !(glyphMode && alpha != 1.0);
      case Setting(setting) =>
        ok := stroke.Set(setting);
        ok := ok && !(glyphMode && stroke.value.alpha != 1.0);
      case Harmless =>
        ok := true;
    }

    /** Operators on the current state, in place. */
    method Apply(glyphMode: bool, op: Op) returns (ok: bool)
      modifies this, stroke, position
      ensures ok <==> StateStep(glyphMode, old(View()), op).Some?
      ensures ok ==> View() == StateStep(glyphMode, old(View()), op).value
    {
      if op.BeginText? || op.SetTextMatrix? || op.MoveText? || op.NextLine? || op.SetText? || op.SetFont? {
        ApplyText(glyphMode, op);
        return true;
      }
      if op.SetStrokeColor? || op.SetStrokeTransparent? || op.SetStroke? || op.SetGState? {
        ok := ApplyStroke(glyphMode, op);
        return;
      }
      ok := true;
      match op
      case Transform(m) => matrix := Multiply(matrix, m);
      case SetFillColor(c) => color, transparent := c, false;
      case SetFillTransparent => transparent := true;
      case CharBounds(path) =>
        if !glyphMode { return false; }
        clip := Cut(clip, path, matrix, Winding);
      case Ignored =>
      case _ => ok := false;
    }

    method ApplyStroke(glyphMode: bool, op: Op) returns (ok: bool)
      requires op.SetStrokeColor? || op.SetStrokeTransparent? || op.SetStroke? || op.SetGState?
      modifies this`alpha, stroke
      ensures ok <==> StateStep(glyphMode, old(View()), op).Some?
      ensures ok ==> View() == StateStep(glyphMode, old(View()), op).value
    {
      ok := true;
      match op
      case SetStrokeColor(c) => stroke.value := stroke.value.(color := c, transparent := false);
      case SetStrokeTransparent => stroke.value := stroke.value.(transparent := true);
      case SetStroke(setting) => ok := stroke.Set(setting);
      case SetGState(entries) => ok := SetGraphicsState(glyphMode, entries);
    }

    method ApplyText(glyphMode: bool, op: Op)
      requires op.BeginText? || op.SetTextMatrix? || op.MoveText? || op.NextLine? || op.SetText? || op.SetFont?
      modifies this`fontId, this`font, this`size, this`textMatrix, position
      ensures StateStep(glyphMode, old(View()), op) == Some(View())
    {
      match op
      case SetFont(id, found, points) => SetFontTo(id, found, points);
      case BeginText => StartText(IDENTITY);
      case SetTextMatrix(m) => StartText(m);
      case MoveText(x, y, leads) =>
        if leads { position.value := position.value.(leading := -y); }
        position.MoveBy(x, y);
      case NextLine => position.MoveBy(0.0, -position.value.leading);
      case SetText(key, v) => position.value := SetKey(position.value, key, v);
    }

    method EnterForm(m: Option<Matrix>, bounds: Option<Path>)
      modifies this`matrix, this`clip
      ensures View() == FormState(old(View()), m, bounds)
    {
      if m.Some? { matrix := Multiply(matrix, m.value); }
      if bounds.Some? { clip := Cut(clip, bounds.value, matrix, Winding); }
    }

    method CutClip(path: Path, rule: FillRule)
      modifies this`clip
      ensures View() == old(View()).(clip := Cut(old(clip), path, old(matrix), rule))
    {
      clip := Cut(clip, path, matrix, rule);
    }

    /** Where text starts, and the position behind it. */
    method Show(glyphs: seq<Glyph>) returns (ink: Ink)
      modifies position
      ensures ink == InkOf(old(View()), glyphs)
      ensures View() == old(View()).(position := Advanced(old(position.value), size, glyphs))
    {
      var m, p := Multiply(matrix, textMatrix), position.value;
      ink := Ink(fontId, font, color, Place(m, StartX(p, size, p.x, glyphs), p.y + p.rise));
      position.Show(size, glyphs);
    }

    method SetFontTo(id: string, found: Font, points: real)
      modifies this`fontId, this`font, this`size, position
      ensures View() == old(View()).(fontId := id, font := Some(found), size := points,
              position := old(position.value).(unit := found.unit))
    {
      font, fontId, size := Some(found), id, points;
      position.value := position.value.(unit := found.unit);
    }

    method StartText(m: Matrix)
      modifies this`textMatrix, position
      ensures View() == old(View()).(textMatrix := m,
              position := old(position.value).(x := 0.0, y := 0.0, lineX := 0.0, lineY := 0.0))
    {
      textMatrix := m;
      position.value := position.value.(x := 0.0, y := 0.0, lineX := 0.0, lineY := 0.0);
    }
  }

  /** Two states share no object. */
  ghost predicate Apart(s: StateObject, t: StateObject) { s != t && s.stroke != t.stroke && s.position != t.position }

  ghost predicate AllApart(states: seq<StateObject>) {
    forall i, j :: 0 <= i < j < |states| ==> Apart(states[i], states[j])
  }

  /** A state and the two objects it holds. */
  ghost predicate Owns(repr: set<object>, s: StateObject) { s in repr && s.stroke in repr && s.position in repr }

  ghost function Views(states: seq<StateObject>): (views: seq<State>)
    reads states, set s <- states :: s.stroke, set s <- states :: s.position
    ensures |views| == |states|
  {
    if states == [] then [] else Views(states[..|states| - 1]) + [states[|states| - 1].View()]
  }

  lemma ViewsAppend(states: seq<StateObject>, s: StateObject)
    ensures Views(states + [s]) == Views(states) + [s.View()]
  {
    assert (states + [s])[..|states|] == states;
  }

  /** States whose objects were not touched look the same. */
  twostate lemma ViewsKept(states: seq<StateObject>)
    requires forall s <- states :: unchanged(s) && unchanged(s.stroke) && unchanged(s.position)
    ensures Views(states) == old(Views(states))
  {
    if states != [] {
      var before := states[..|states| - 1];
      assert forall s <- before :: s in states;
      assert states[|states| - 1] in states;
      ViewsKept(before);
    }
  }

  class Interpreter {
    const g: Geometry
    const glyphMode: bool
    var state: StateObject
    var stack: seq<StateObject>
    var pending: Option<FillRule>
    var marks: seq<Mark>
    var images: seq<Image>
    var inks: seq<Ink>

    /** Every state object so far, with its parts. */
    ghost var Repr: set<object>

    ghost predicate Valid()
      reads this
    {
      && AllApart(stack) && (forall s <- stack :: Apart(s, state))
      && Owns(Repr, state) && forall s <- stack :: Owns(Repr, s)
    }

    ghost function M(): Machine
      reads this, state, state.stroke, state.position
      reads stack, set s <- stack :: s.stroke, set s <- stack :: s.position
    {
      Machine(state.View(), Views(stack), pending, marks, images, inks)
    }

    constructor (g: Geometry, glyphMode: bool, viewport: Matrix)
      ensures this.g == g && this.glyphMode == glyphMode && Valid() && fresh(Repr) && M() == Start(viewport)
    {
      this.g, this.glyphMode := g, glyphMode;
      state := new StateObject.Of(Start(viewport).state);
      stack, pending, marks, images, inks := [], None, [], [], [];
      new;
      Repr := {state, state.stroke, state.position};
    }

    method Push()
      requires Valid()
      modifies this`stack, this`Repr
      ensures Valid() && state == old(state) && fresh(Repr - old(Repr))
      ensures M() == old(M()).(stack := old(M()).stack + [old(M()).state])
    {
      hide Views;
      var copy := new StateObject.Copy(state);
      ViewsKept(stack);
      ViewsAppend(stack, copy);
      stack := stack + [copy];
      Repr := Repr + {copy, copy.stroke, copy.position};
    }

    method PopState() returns (ok: bool)
      requires Valid()
      modifies this`state, this`stack
      ensures Valid()
      ensures ok <==> Pop(old(M())).Some?
      ensures ok ==> M() == Pop(old(M())).value
    {
      if stack == [] { return false; }
      state := stack[|stack| - 1];
      stack := stack[..|stack| - 1];
      return true;
    }

    /** A form saves, moves and clips. */
    method BeginForm(matrix: Option<Matrix>, bounds: Option<Path>)
      requires Valid()
      modifies this`stack, this`Repr, state
      ensures Valid() && state == old(state) && fresh(Repr - old(Repr))
      ensures M() == old(M()).(stack := old(M()).stack + [old(M()).state],
              state := FormState(old(M()).state, matrix, bounds))
    {
      Push();
      label pushed:
      state.EnterForm(matrix, bounds);
      ViewsKept@pushed(stack);
    }

    method Record(path: Path, color: Color, alpha: real, stroked: bool)
      requires Valid()
      modifies this`marks
      ensures M() == Marked(g, old(M()), path, color, alpha, stroked)
    {
      if alpha <= 0.0 || !g.visible(path, state.matrix, state.clip) { return; }
      marks := marks + [Mark(path, state.matrix, state.clip, color, alpha, stroked)];
    }

    /** Fill, then stroke. */
    method PaintPath(path: Path, paint: Paint) returns (ok: bool)
      requires Valid()
      modifies this`marks
      ensures ok <==> Painted(g, old(M()), path, paint).Some?
      ensures ok ==> M() == Painted(g, old(M()), path, paint).value
    {
      if paint.fill && !state.transparent { Record(path, state.color, state.alpha, false); }
      var stroke := state.stroke.value;
      if paint.stroke && !stroke.transparent && stroke.alpha > 0.0 {
        if stroke.width == 0.0 || stroke.dashed { return false; }
        Record(path, stroke.color, stroke.alpha, true);
      }
      return true;
    }

    /** The clip that waited for this path. */
    method ClipToPath(path: Path)
      requires Valid()
      modifies this`pending, state`clip
      ensures M() == Clipped(old(M()), path)
    {
      if pending.Some? {
        state.CutClip(path, pending.value);
        ViewsKept(stack);
        pending := None;
      }
    }

    method TakePath(path: Path, paint: Paint) returns (ok: bool)
      requires Valid()
      modifies this`marks, this`pending, state`clip
      ensures ok <==> PathStep(g, old(M()), path, paint).Some?
      ensures ok ==> M() == PathStep(g, old(M()), path, paint).value
    {
      ok := PaintPath(path, paint);
      if ok { ClipToPath(path); }
    }

    method PaintPicture(image: nat) returns (ok: bool)
      requires Valid()
      modifies this`images
      ensures ok <==> Step(g, false, old(M()), PaintImage(image)).Some?
      ensures ok ==> M() == Step(g, false, old(M()), PaintImage(image)).value
    {
      if state.alpha != 1.0 { return false; }
      if g.visible(UNIT_SQUARE, state.matrix, state.clip) {
        images := images + [Image(image, state.matrix, state.clip)];
      }
      return true;
    }

    method ShowGlyphs(glyphs: seq<Glyph>) returns (ok: bool)
      requires Valid()
      modifies this`inks, state.position
      ensures ok <==> Step(g, false, old(M()), ShowText(glyphs)).Some?
      ensures ok ==> M() == Step(g, false, old(M()), ShowText(glyphs)).value
    {
      hide Views, InkOf, Advanced;
      if state.alpha != 1.0 || state.transparent { return false; }
      var ink := state.Show(glyphs);
      ViewsKept(stack);
      inks := inks + [ink];
      return true;
    }

    method ApplyToState(op: Op) returns (ok: bool)
      requires Valid()
      modifies state, state.stroke, state.position
      ensures ok <==> StateStep(glyphMode, old(M()).state, op).Some?
      ensures ok ==> M() == old(M()).(state := StateStep(glyphMode, old(M()).state, op).value)
    {
      ok := state.Apply(glyphMode, op);
      ViewsKept(stack);
    }

    /** Operators that save and restore. */
    method VisitNesting(op: Op) returns (ok: bool)
      requires Valid() && (op.Save? || op.Restore? || op.FormBegin? || op.FormEnd?)
      modifies this`state, this`stack, this`Repr, state
      ensures Valid() && fresh(Repr - old(Repr))
      ensures ok <==> Step(g, glyphMode, old(M()), op).Some?
      ensures ok ==> M() == Step(g, glyphMode, old(M()), op).value
    {
      hide Views, FormState;
      ok := true;
      if op.Save? { Push(); }
      else if op.FormBegin? { BeginForm(op.matrix, op.bounds); }
      else { ok := PopState(); }
    }

    /** Operators that paint. */
    method VisitPaint(op: Op) returns (ok: bool)
      requires Valid() && (op.ClipNext? || op.ConstructPath? || op.PaintImage? || op.ShowText?)
      requires !(glyphMode && BarredInGlyph(op))
      modifies this`pending, this`marks, this`images, this`inks, state`clip, state.position
      ensures ok <==> Step(g, glyphMode, old(M()), op).Some?
      ensures ok ==> M() == Step(g, glyphMode, old(M()), op).value
    {
      ok := true;
      if op.ClipNext? { pending := Some(op.rule); }
      else if op.ConstructPath? { ok := TakePath(op.path, op.paint); }
      else if op.PaintImage? { ok := PaintPicture(op.image); }
      else { ok := ShowGlyphs(op.glyphs); }
    }

    /** One operator, in place, does what the step on values says. */
    method Visit(op: Op) returns (ok: bool)
      requires Valid()
      modifies this, state, state.stroke, state.position
      ensures Valid() && fresh(Repr - old(Repr))
      ensures ok <==> Step(g, glyphMode, old(M()), op).Some?
      ensures ok ==> M() == Step(g, glyphMode, old(M()), op).value
    {
      hide Views, StateStep, PathStep, FormState, InkOf;
      if glyphMode && BarredInGlyph(op) { return false; }
      if op.Save? || op.Restore? || op.FormBegin? || op.FormEnd? { ok := VisitNesting(op); }
      else if op.ClipNext? || op.ConstructPath? || op.PaintImage? || op.ShowText? { ok := VisitPaint(op); }
      else { ok := ApplyToState(op); }
    }

    /** A whole operator list. */
    method Interpret(ops: seq<Op>) returns (ok: bool)
      requires Valid()
      modifies this, Repr
      ensures ok <==> Accepted(g, glyphMode, old(M()), ops).Some?
      ensures ok ==> M() == Accepted(g, glyphMode, old(M()), ops).value
    {
      ghost var start, owned := M(), Repr;
      for i := 0 to |ops|
        invariant Valid() && fresh(Repr - owned)
        invariant Run(g, glyphMode, start, ops[..i]) == Some(M())
      {
        RunNext(g, glyphMode, start, ops, i);
        var visited := Visit(ops[i]);
        if !visited {
          Refused(g, glyphMode, start, ops, i + 1);
          return false;
        }
      }
      assert ops[..|ops|] == ops;
      return stack == [] && pending.None?;
    }
  }

  lemma RunNext(g: Geometry, glyphMode: bool, m: Machine, ops: seq<Op>, i: nat)
    requires i < |ops| && Run(g, glyphMode, m, ops[..i]).Some?
    ensures Run(g, glyphMode, m, ops[..i + 1]) == Step(g, glyphMode, Run(g, glyphMode, m, ops[..i]).value, ops[i])
  {
    assert ops[..i + 1][..i] == ops[..i];
  }

  /** A refused operator refuses everything that follows it. */
  lemma {:induction false} Refused(g: Geometry, glyphMode: bool, m: Machine, ops: seq<Op>, n: nat)
    requires n <= |ops| && Run(g, glyphMode, m, ops[..n]).None?
    ensures Run(g, glyphMode, m, ops).None?
  {
    if n < |ops| {
      assert ops[..|ops| - 1][..n] == ops[..n];
      Refused(g, glyphMode, m, ops[..|ops| - 1], n);
    } else {
      assert ops[..n] == ops;
    }
  }
}
