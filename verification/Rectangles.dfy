/** Taking rectangles out of a surface leaves an exact partition of what is exposed. */
module Rectangles {

  /** Half-open on the right and at the bottom. */
  datatype Box = Box(left: real, top: real, right: real, bottom: real) {
    predicate Contains(x: real, y: real) { left <= x < right && top <= y < bottom }

    predicate NonEmpty() { left < right && top < bottom }

    function Area(): real { if NonEmpty() then (right - left) * (bottom - top) else 0.0 }
  }

  function Max(a: real, b: real): real { if a < b then b else a }

  function Min(a: real, b: real): real { if a < b then a else b }

  function Overlap(a: Box, b: Box): Box {
    Box(Max(a.left, b.left), Max(a.top, b.top), Min(a.right, b.right), Min(a.bottom, b.bottom))
  }

  /** What is left of an area: a part on the left, one on the right, one above and one below the overlap. */
  function Cut(area: Box, shape: Box): seq<Box> {
    var o := Overlap(area, shape);
    if o.right <= o.left || o.bottom <= o.top then [area]
    else
      Kept(area.(right := o.left)) + Kept(area.(left := o.right))
      + Kept(Box(o.left, area.top, o.right, o.top)) + Kept(Box(o.left, o.bottom, o.right, area.bottom))
  }

  function Kept(part: Box): seq<Box> { if part.NonEmpty() then [part] else [] }

  function CutAll(areas: seq<Box>, shape: Box): seq<Box> {
    if areas == [] then [] else CutAll(areas[..|areas| - 1], shape) + Cut(areas[|areas| - 1], shape)
  }

  function Exposed(surface: Box, shapes: seq<Box>): seq<Box> {
    if shapes == [] then [surface] else CutAll(Exposed(surface, shapes[..|shapes| - 1]), shapes[|shapes| - 1])
  }

  /** The loop over the exclusions, and over the areas exposed so far. */
  method PdfExposed(surface: Box, shapes: seq<Box>) returns (exposed: seq<Box>)
    ensures exposed == Exposed(surface, shapes)
  {
    exposed := [surface];
    for i := 0 to |shapes|
      invariant exposed == Exposed(surface, shapes[..i])
    {
      assert shapes[..i + 1][..i] == shapes[..i];
      var cut := [];
      for j := 0 to |exposed|
        invariant cut == CutAll(exposed[..j], shapes[i])
      {
        assert exposed[..j + 1][..j] == exposed[..j];
        cut := cut + Cut(exposed[j], shapes[i]);
      }
      assert exposed[..|exposed|] == exposed;
      exposed := cut;
    }
    assert shapes[..|shapes|] == shapes;
  }

  // ---------------------------------------------------------------- points

  /** How many of the boxes contain a point. */
  function Covers(boxes: seq<Box>, x: real, y: real): nat {
    if boxes == [] then 0
    else Covers(boxes[..|boxes| - 1], x, y) + if boxes[|boxes| - 1].Contains(x, y) then 1 else 0
  }

  lemma {:induction false} CoversAppend(a: seq<Box>, b: seq<Box>, x: real, y: real)
    ensures Covers(a + b, x, y) == Covers(a, x, y) + Covers(b, x, y)
    decreases |b|
  {
    if b == [] {
      assert a + b == a;
    } else {
      assert (a + b)[..|a + b| - 1] == a + b[..|b| - 1];
      CoversAppend(a, b[..|b| - 1], x, y);
    }
  }

  lemma CoversKept(part: Box, x: real, y: real)
    ensures Covers(Kept(part), x, y) == if part.Contains(x, y) then 1 else 0
  {
    assert [part][..0] == [];
  }

  /** Cutting keeps exactly the points outside the shape, each once. */
  lemma CutExact(area: Box, shape: Box, x: real, y: real)
    ensures Covers(Cut(area, shape), x, y) == if area.Contains(x, y) && !shape.Contains(x, y) then 1 else 0
  {
    var o := Overlap(area, shape);
    if o.right <= o.left || o.bottom <= o.top {
      assert [area][..0] == [];
    } else {
      var a, b := area.(right := o.left), area.(left := o.right);
      var c, d := Box(o.left, area.top, o.right, o.top), Box(o.left, o.bottom, o.right, area.bottom);
      CoversAppend(Kept(a) + Kept(b) + Kept(c), Kept(d), x, y);
      CoversAppend(Kept(a) + Kept(b), Kept(c), x, y);
      CoversAppend(Kept(a), Kept(b), x, y);
      CoversKept(a, x, y);
      CoversKept(b, x, y);
      CoversKept(c, x, y);
      CoversKept(d, x, y);
    }
  }

  lemma {:induction false} CutAllExact(areas: seq<Box>, shape: Box, x: real, y: real)
    ensures Covers(CutAll(areas, shape), x, y) == if shape.Contains(x, y) then 0 else Covers(areas, x, y)
  {
    if areas != [] {
      var before, last := areas[..|areas| - 1], areas[|areas| - 1];
      CutAllExact(before, shape, x, y);
      CutExact(last, shape, x, y);
      CoversAppend(CutAll(before, shape), Cut(last, shape), x, y);
    }
  }

  ghost predicate Excluded(shapes: seq<Box>, x: real, y: real) { exists shape <- shapes :: shape.Contains(x, y) }

  /**
   The partition is exact: a point of the surface outside every exclusion lies in exactly one piece, and any
   other point in none.
   */
  lemma {:induction false} ExposedExact(surface: Box, shapes: seq<Box>, x: real, y: real)
    ensures Covers(Exposed(surface, shapes), x, y) == if surface.Contains(x, y) && !Excluded(shapes, x, y) then 1 else 0
  {
    if shapes == [] {
      assert [surface][..0] == [];
    } else {
      var before, last := shapes[..|shapes| - 1], shapes[|shapes| - 1];
      ExposedExact(surface, before, x, y);
      CutAllExact(Exposed(surface, before), last, x, y);
      assert shapes == before + [last];
    }
  }

  /** No two pieces share a point. */
  lemma PiecesDisjoint(surface: Box, shapes: seq<Box>, i: nat, j: nat, x: real, y: real)
    requires i < j < |Exposed(surface, shapes)|
    ensures !(Exposed(surface, shapes)[i].Contains(x, y) && Exposed(surface, shapes)[j].Contains(x, y))
  {
    var pieces := Exposed(surface, shapes);
    ExposedExact(surface, shapes, x, y);
    if pieces[i].Contains(x, y) && pieces[j].Contains(x, y) {
      CoversTwo(pieces, i, j, x, y);
    }
  }

  lemma {:induction false} CoversTwo(boxes: seq<Box>, i: nat, j: nat, x: real, y: real)
    requires i < j < |boxes| && boxes[i].Contains(x, y) && boxes[j].Contains(x, y)
    ensures Covers(boxes, x, y) >= 2
  {
    if j < |boxes| - 1 {
      CoversTwo(boxes[..|boxes| - 1], i, j, x, y);
    } else {
      CoversOne(boxes[..|boxes| - 1], i, x, y);
    }
  }

  lemma {:induction false} CoversOne(boxes: seq<Box>, i: nat, x: real, y: real)
    requires i < |boxes| && boxes[i].Contains(x, y)
    ensures Covers(boxes, x, y) >= 1
  {
    if i < |boxes| - 1 { CoversOne(boxes[..|boxes| - 1], i, x, y); }
  }

  // ---------------------------------------------------------------- pieces and area

  ghost predicate AllNonEmpty(boxes: seq<Box>) { forall box <- boxes :: box.NonEmpty() }

  lemma JoinNonEmpty(a: seq<Box>, b: seq<Box>)
    requires AllNonEmpty(a) && AllNonEmpty(b)
    ensures AllNonEmpty(a + b)
  {
  }

  lemma CutNonEmpty(area: Box, shape: Box)
    requires area.NonEmpty()
    ensures AllNonEmpty(Cut(area, shape))
  {
    var o := Overlap(area, shape);
    var a, b := Kept(area.(right := o.left)), Kept(area.(left := o.right));
    var c, d := Kept(Box(o.left, area.top, o.right, o.top)), Kept(Box(o.left, o.bottom, o.right, area.bottom));
    JoinNonEmpty(a, b);
    JoinNonEmpty(a + b, c);
    JoinNonEmpty(a + b + c, d);
  }

  lemma {:induction false} CutAllNonEmpty(areas: seq<Box>, shape: Box)
    requires AllNonEmpty(areas)
    ensures AllNonEmpty(CutAll(areas, shape))
  {
    if areas != [] {
      var before, last := areas[..|areas| - 1], areas[|areas| - 1];
      assert last in areas;
      CutAllNonEmpty(before, shape);
      CutNonEmpty(last, shape);
      JoinNonEmpty(CutAll(before, shape), Cut(last, shape));
    }
  }

  lemma EmptyStays(surface: Box, shape: Box)
    requires !surface.NonEmpty()
    ensures CutAll([surface], shape) == [surface]
  {
    assert [surface][..0] == [] && CutAll([], shape) == [];
  }

  /** Every piece is non-empty exactly when the surface is: an empty surface stays as it is. */
  lemma {:induction false} PiecesNonEmpty(surface: Box, shapes: seq<Box>)
    ensures surface.left < surface.right && surface.top < surface.bottom ==>
              forall b <- Exposed(surface, shapes) :: b.left < b.right && b.top < b.bottom
    ensures surface.NonEmpty() ==> AllNonEmpty(Exposed(surface, shapes))
    ensures !surface.NonEmpty() ==> Exposed(surface, shapes) == [surface]
  {
    hide Cut;
    if shapes != [] {
      PiecesNonEmpty(surface, shapes[..|shapes| - 1]);
      if surface.NonEmpty() {
        CutAllNonEmpty(Exposed(surface, shapes[..|shapes| - 1]), shapes[|shapes| - 1]);
      } else {
        EmptyStays(surface, shapes[|shapes| - 1]);
      }
    }
  }

  function TotalArea(boxes: seq<Box>): real {
    if boxes == [] then 0.0 else TotalArea(boxes[..|boxes| - 1]) + boxes[|boxes| - 1].Area()
  }

  lemma {:induction false} AreaAppend(a: seq<Box>, b: seq<Box>)
    ensures TotalArea(a + b) == TotalArea(a) + TotalArea(b)
    decreases |b|
  {
    if b == [] {
      assert a + b == a;
    } else {
      assert (a + b)[..|a + b| - 1] == a + b[..|b| - 1];
      AreaAppend(a, b[..|b| - 1]);
    }
  }

  lemma AreaKept(part: Box)
    ensures TotalArea(Kept(part)) == part.Area()
  {
    assert [part][..0] == [];
  }

  /** The four parts and the overlap make up the area. */
  lemma FourParts(l: real, l': real, r': real, r: real, t: real, t': real, b': real, b: real)
    ensures (l' - l) * (b - t) + (r - r') * (b - t) + (r' - l') * (t' - t) + (r' - l') * (b - b')
            + (r' - l') * (b' - t')
            == (r - l) * (b - t)
  {
    var w := r' - l';
    assert w * (t' - t) + w * (b - b') + w * (b' - t') == w * (b - t);
    assert (l' - l) * (b - t) + (r - r') * (b - t) + w * (b - t) == ((l' - l) + (r - r') + w) * (b - t);
  }

  /** The area of a box whose edges may coincide but do not cross. */
  lemma EdgeArea(l: real, t: real, r: real, b: real)
    requires l <= r && t <= b
    ensures Box(l, t, r, b).Area() == (r - l) * (b - t)
  {
    if l == r { assert (r - l) * (b - t) == 0.0; }
    if t == b { assert (r - l) * (b - t) == 0.0; }
  }

  lemma PartsArea(l: real, l': real, r': real, r: real, t: real, t': real, b': real, b: real)
    requires l <= l' <= r' <= r && t <= t' <= b' <= b
    ensures Box(l, t, l', b).Area() + Box(r', t, r, b).Area() + Box(l', t, r', t').Area() + Box(l', b', r', b).Area()
            + Box(l', t', r', b').Area() == Box(l, t, r, b).Area()
  {
    EdgeArea(l, t, l', b);
    EdgeArea(r', t, r, b);
    EdgeArea(l', t, r', t');
    EdgeArea(l', b', r', b);
    EdgeArea(l', t', r', b');
    EdgeArea(l, t, r, b);
    FourParts(l, l', r', r, t, t', b', b);
  }

  lemma FourKept(a: Box, b: Box, c: Box, d: Box)
    ensures TotalArea(Kept(a) + Kept(b) + Kept(c) + Kept(d)) == a.Area() + b.Area() + c.Area() + d.Area()
  {
    AreaAppend(Kept(a) + Kept(b) + Kept(c), Kept(d));
    AreaAppend(Kept(a) + Kept(b), Kept(c));
    AreaAppend(Kept(a), Kept(b));
    AreaKept(a);
    AreaKept(b);
    AreaKept(c);
    AreaKept(d);
  }

  lemma CutConservesArea(area: Box, shape: Box)
    requires area.NonEmpty()
    ensures TotalArea(Cut(area, shape)) + Overlap(area, shape).Area() == area.Area()
  {
    var o := Overlap(area, shape);
    if o.NonEmpty() {
      FourKept(area.(right := o.left), area.(left := o.right),
               Box(o.left, area.top, o.right, o.top), Box(o.left, o.bottom, o.right, area.bottom));
      PartsArea(area.left, o.left, o.right, area.right, area.top, o.top, o.bottom, area.bottom);
    } else {
      assert [area][..0] == [];
    }
  }

  function RemovedArea(areas: seq<Box>, shape: Box): real {
    if areas == [] then 0.0 else RemovedArea(areas[..|areas| - 1], shape) + Overlap(areas[|areas| - 1], shape).Area()
  }

  /** One step of the loop takes away exactly the area that the shape covers. */
  lemma {:induction false} StepConservesArea(areas: seq<Box>, shape: Box)
    requires AllNonEmpty(areas)
    ensures TotalArea(CutAll(areas, shape)) + RemovedArea(areas, shape) == TotalArea(areas)
  {
    if areas != [] {
      var before, last := areas[..|areas| - 1], areas[|areas| - 1];
      assert last in areas;
      StepConservesArea(before, shape);
      CutConservesArea(last, shape);
      AreaAppend(CutAll(before, shape), Cut(last, shape));
    }
  }
}
