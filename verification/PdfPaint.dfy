/** PDF painting operators as steps on values: the graphics state, its stack, and what is painted. */
module PdfPaint {
  import opened Options

  /** An affine matrix, in the order of its six PDF operands. */
  datatype Matrix = Matrix(a: real, b: real, c: real, d: real, e: real, f: real)

  const IDENTITY := Matrix(1.0, 0.0, 0.0, 1.0, 0.0, 0.0)

  function Dot(p: real, q: real, x: real, y: real): real { p * x + q * y }

  function Multiply(m: Matrix, n: Matrix): Matrix {
    Matrix(Dot(m.a, m.c, n.a, n.b), Dot(m.b, m.d, n.a, n.b),
           Dot(m.a, m.c, n.c, n.d), Dot(m.b, m.d, n.c, n.d),
           Dot(m.a, m.c, n.e, n.f) + m.e, Dot(m.b, m.d, n.e, n.f) + m.f)
  }

  datatype FillRule = Winding | EvenOdd

  /** Paths by number; number 0 is the unit square that images are painted in. */
  type Path = nat

  const UNIT_SQUARE: Path := 0

  type Color = string

  /** A clip is the page, cut by one path after another under the matrix of that time. */
  datatype Clip = Page | Cut(clip: Clip, path: Path, matrix: Matrix, rule: FillRule)

  datatype Stroke = Stroke(
    color: Color, alpha: real, transparent: bool, width: real, cap: int, join: int, miterLimit: real, dashed: bool)
  datatype TextPosition = TextPosition(
    x: real, y: real, lineX: real, lineY: real, leading: real, rise: real, scale: real, charGap: real, wordGap: real,
    unit: real)

  datatype Font = Font(name: string, weight: Option<int>, bold: bool, type3: Option<nat>, unit: real)

  datatype State = State(
    matrix: Matrix, clip: Clip, color: Color, alpha: real, fontId: string, font: Option<Font>, size: real,
    textMatrix: Matrix, transparent: bool, stroke: Stroke, position: TextPosition)

  // ---------------------------------------------------------------- operators

  datatype StrokeSetting =
    | Width(w: real) | Cap(cap: int) | Join(join: int)
    | MiterLimit(limit: real) | Dash(dashed: bool) | StrokeAlpha(sa: real)
  datatype GEntry = FillAlpha(fa: real) | Setting(setting: StrokeSetting) | Harmless
  datatype TextKey = Leading | Rise | Scale | CharGap | WordGap
  datatype Glyph = Kern(amount: real) | Shape(width: real, space: bool)

  /** What a path is painted with. */
  datatype Paint = Paint(fill: bool, stroke: bool)

  /** Operators with their operands decoded. `Unsupported` is any other operator, and any operand of a wrong shape. */
  datatype Op =
    | Save | Restore | FormEnd
    | FormBegin(matrix: Option<Matrix>, bounds: Option<Path>)
    | Transform(m: Matrix)
    | SetFillColor(color: Color) | SetFillTransparent
    | SetStrokeColor(color: Color) | SetStrokeTransparent
    | SetStroke(setting: StrokeSetting)
    | SetGState(entries: seq<GEntry>)
    | ClipNext(rule: FillRule)
    | CharBounds(path: Path)
    | ConstructPath(path: Path, paint: Paint)
    | PaintImage(image: nat)
    | SetFont(id: string, found: Font, size: real)
    | BeginText | SetTextMatrix(m: Matrix)
    | MoveText(x: real, y: real, leads: bool) | NextLine
    | SetText(key: TextKey, value: real)
    | ShowText(glyphs: seq<Glyph>)
    | Ignored
    | Unsupported

  // ---------------------------------------------------------------- what is painted

  datatype Mark = Mark(path: Path, matrix: Matrix, clip: Clip, color: Color, alpha: real, stroked: bool)
  datatype Image = Image(image: nat, matrix: Matrix, clip: Clip)
  datatype Ink = Ink(fontId: string, font: Option<Font>, color: Color, place: (real, real))

  datatype Machine = Machine(state: State, stack: seq<State>, pending: Option<FillRule>,
                             marks: seq<Mark>, images: seq<Image>, inks: seq<Ink>)

  /** Whether anything of a path is left inside a clip, which is a library of the source. */
  datatype Geometry = Geometry(visible: (Path, Matrix, Clip) -> bool)

  // ---------------------------------------------------------------- steps

  function ApplySetting(stroke: Stroke, s: StrokeSetting): Option<Stroke> {
    match s
    case Width(w) => if w < 0.0 then None else Some(stroke.(width := w))
    case Cap(cap) => if 0 <= cap <= 2 then Some(stroke.(cap := cap)) else None
    case Join(join) => if 0 <= join <= 2 then Some(stroke.(join := join)) else None
    case MiterLimit(limit) => if limit < 1.0 then None else Some(stroke.(miterLimit := limit))
    case Dash(dashed) => Some(stroke.(dashed := dashed))
    case StrokeAlpha(alpha) => if 0.0 <= alpha <= 1.0 then Some(stroke.(alpha := alpha)) else None
  }

  function ApplyEntry(glyphMode: bool, s: State, entry: GEntry): Option<State> {
    match entry
    case FillAlpha(alpha) =>
      if 0.0 <= alpha <= 1.0 && (glyphMode ==> alpha == 1.0) then Some(s.(alpha := alpha)) else None
    case Setting(setting) =>
      var stroke := ApplySetting(s.stroke, setting);
      if stroke.None? || (glyphMode && stroke.value.alpha != 1.0) then None else Some(s.(stroke := stroke.value))
    case Harmless => Some(s)
  }

  function ApplyEntries(glyphMode: bool, s: State, entries: seq<GEntry>): Option<State> {
    if entries == [] then Some(s)
    else
      var before := ApplyEntries(glyphMode, s, entries[..|entries| - 1]);
      if before.None? then None else ApplyEntry(glyphMode, before.value, entries[|entries| - 1])
  }

  function Marked(g: Geometry, m: Machine, path: Path, color: Color, alpha: real, stroked: bool): Machine {
    if alpha <= 0.0 || !g.visible(path, m.state.matrix, m.state.clip) then m
    else m.(marks := m.marks + [Mark(path, m.state.matrix, m.state.clip, color, alpha, stroked)])
  }

  /** Fill, then stroke. */
  function Painted(g: Geometry, m: Machine, path: Path, paint: Paint): Option<Machine> {
    var filled := if paint.fill && !m.state.transparent
                  then Marked(g, m, path, m.state.color, m.state.alpha, false) else m;
    var stroke := m.state.stroke;
    if !paint.stroke || stroke.transparent || stroke.alpha <= 0.0 then Some(filled)
    else if stroke.width == 0.0 || stroke.dashed then None
    else Some(Marked(g, filled, path, stroke.color, stroke.alpha, true))
  }

  /** The clip that waited for this path. */
  function Clipped(m: Machine, path: Path): Machine {
    match m.pending
    case None => m
    case Some(rule) => m.(state := m.state.(clip := Cut(m.state.clip, path, m.state.matrix, rule)), pending := None)
  }

  function PathStep(g: Geometry, m: Machine, path: Path, paint: Paint): Option<Machine> {
    var painted := Painted(g, m, path, paint);
    if painted.None? then None else Some(Clipped(painted.value, path))
  }

  function FormState(s: State, matrix: Option<Matrix>, bounds: Option<Path>): State {
    var moved := if matrix.Some? then s.(matrix := Multiply(s.matrix, matrix.value)) else s;
    if bounds.Some? then moved.(clip := Cut(moved.clip, bounds.value, moved.matrix, Winding)) else moved
  }

  function Move(p: TextPosition, x: real, y: real): TextPosition {
    p.(lineX := p.lineX + x, lineY := p.lineY + y, x := p.lineX + x, y := p.lineY + y)
  }

  function SetKey(p: TextPosition, key: TextKey, value: real): TextPosition {
    match key
    case Leading => p.(leading := value)
    case Rise => p.(rise := value)
    case Scale => p.(scale := value / 100.0)
    case CharGap => p.(charGap := value)
    case WordGap => p.(wordGap := value)
  }

  function Abs(x: real): real { if x < 0.0 then -x else x }

  function Sign(x: real): real { if x < 0.0 then -1.0 else if x > 0.0 then 1.0 else 0.0 }

  /** How far one glyph or adjustment moves the text position. */
  function Advance(p: TextPosition, size: real, glyph: Glyph): real {
    var advance := match glyph
      case Kern(amount) => -amount * Abs(size) / 1000.0
      case Shape(width, space) =>
        width * Abs(size) * p.unit + Sign(size) * (p.charGap + if space then p.wordGap else 0.0);
    advance * p.scale * Sign(size)
  }

  function Advanced(p: TextPosition, size: real, glyphs: seq<Glyph>): (r: TextPosition)
    ensures r == p.(x := r.x)
  {
    if glyphs == [] then p
    else
      var before := Advanced(p, size, glyphs[..|glyphs| - 1]);
      p.(x := before.x + Advance(p, size, glyphs[|glyphs| - 1]))
  }

  /** Adjustments before the first glyph move the place where the text starts. */
  function StartX(p: TextPosition, size: real, x: real, glyphs: seq<Glyph>): real
    decreases glyphs
  {
    if glyphs == [] || glyphs[0].Shape? then x
    else StartX(p, size, x - glyphs[0].amount * size / 1000.0 * p.scale, glyphs[1..])
  }

  function Place(m: Matrix, x: real, y: real): (real, real) { (Dot(m.a, m.c, x, y) + m.e, Dot(m.b, m.d, x, y) + m.f) }

  function InkOf(s: State, glyphs: seq<Glyph>): Ink {
    var p := s.position;
    Ink(s.fontId, s.font, s.color,
        Place(Multiply(s.matrix, s.textMatrix), StartX(p, s.size, p.x, glyphs), p.y + p.rise))
  }

  /** Glyph programs have no colors, fonts, text or images of their own. */
  predicate BarredInGlyph(op: Op) {
    op.SetFillColor? || op.SetStrokeColor? || op.SetFillTransparent? || op.SetStrokeTransparent?
    || op.SetFont? || op.ShowText? || op.PaintImage?
  }

  /** Operators that change only the current state. */
  function StateStep(glyphMode: bool, s: State, op: Op): Option<State> {
    match op
    case Transform(m) => Some(s.(matrix := Multiply(s.matrix, m)))
    case SetFillColor(color) => Some(s.(color := color, transparent := false))
    case SetFillTransparent => Some(s.(transparent := true))
    case SetStrokeColor(color) => Some(s.(stroke := s.stroke.(color := color, transparent := false)))
    case SetStrokeTransparent => Some(s.(stroke := s.stroke.(transparent := true)))
    case SetStroke(setting) =>
      var stroke := ApplySetting(s.stroke, setting);
      if stroke.None? then None else Some(s.(stroke := stroke.value))
    case SetGState(entries) => ApplyEntries(glyphMode, s, entries)
    case CharBounds(path) => if glyphMode then Some(s.(clip := Cut(s.clip, path, s.matrix, Winding))) else None
    case SetFont(id, font, size) =>
      Some(s.(fontId := id, font := Some(font), size := size, position := s.position.(unit := font.unit)))
    case BeginText =>
      Some(s.(textMatrix := IDENTITY, position := s.position.(x := 0.0, y := 0.0, lineX := 0.0, lineY := 0.0)))
    case SetTextMatrix(m) =>
      Some(s.(textMatrix := m, position := s.position.(x := 0.0, y := 0.0, lineX := 0.0, lineY := 0.0)))
    case MoveText(x, y, leads) =>
      Some(s.(position := Move(if leads then s.position.(leading := -y) else s.position, x, y)))
    case NextLine => Some(s.(position := Move(s.position, 0.0, -s.position.leading)))
    case SetText(key, value) => Some(s.(position := SetKey(s.position, key, value)))
    case Ignored => Some(s)
    case _ => None
  }

  /** One operator. An absent result is the source's refusal. */
  function Step(g: Geometry, glyphMode: bool, m: Machine, op: Op): Option<Machine> {
    if glyphMode && BarredInGlyph(op) then None
    else
      match op
      case Save => Some(m.(stack := m.stack + [m.state]))
      case FormBegin(matrix, bounds) =>
        Some(m.(stack := m.stack + [m.state], state := FormState(m.state, matrix, bounds)))
      case Restore => Pop(m)
      case FormEnd => Pop(m)
      case ClipNext(rule) => Some(m.(pending := Some(rule)))
      case ConstructPath(path, paint) => PathStep(g, m, path, paint)
      case PaintImage(image) =>
        if m.state.alpha != 1.0 then None
        else if !g.visible(UNIT_SQUARE, m.state.matrix, m.state.clip) then Some(m)
        else Some(m.(images := m.images + [Image(image, m.state.matrix, m.state.clip)]))
      case ShowText(glyphs) =>
        if m.state.alpha != 1.0 || m.state.transparent then None
        else Some(m.(inks := m.inks + [InkOf(m.state, glyphs)],
                     state := m.state.(position := Advanced(m.state.position, m.state.size, glyphs))))
      case _ =>
        var state := StateStep(glyphMode, m.state, op);
        if state.None? then None else Some(m.(state := state.value))
  }

  function Pop(m: Machine): Option<Machine> {
    if m.stack == [] then None
    else Some(m.(state := m.stack[|m.stack| - 1], stack := m.stack[..|m.stack| - 1]))
  }

  function Run(g: Geometry, glyphMode: bool, m: Machine, ops: seq<Op>): Option<Machine> {
    if ops == [] then Some(m)
    else
      var before := Run(g, glyphMode, m, ops[..|ops| - 1]);
      if before.None? then None else Step(g, glyphMode, before.value, ops[|ops| - 1])
  }

  /** A whole page is accepted when everything saved was restored and no clip waits for a path. */
  function Accepted(g: Geometry, glyphMode: bool, m: Machine, ops: seq<Op>): Option<Machine> {
    var end := Run(g, glyphMode, m, ops);
    if end.None? || end.value.stack != [] || end.value.pending.Some? then None else end
  }

  function Start(viewport: Matrix): Machine {
    Machine(State(viewport, Page, "#000000", 1.0, "", None, 0.0, IDENTITY, false,
                  Stroke("#000000", 1.0, false, 1.0, 0, 0, 10.0, false),
                  TextPosition(0.0, 0.0, 0.0, 0.0, 0.0, 0.0, 1.0, 0.0, 0.0, 0.001)),
            [], None, [], [], [])
  }
}
