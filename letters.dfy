/** Per-letter geometry: each of the letters D, O, G and E is a fixed list of blocks
    ("strokes"), emitted one after another with a running vertex offset. */
module Letters {
  import opened Geometry

  /** One block of a letter: centre (x, y) relative to the letter's centre, width and height. */
  datatype Stroke = Stroke(x: real, y: real, w: real, h: real)

  /** What `generateLetterGeometry` returns: the letter's vertices and indices and the
      vertex offset the next letter starts at. */
  datatype Glyph = Glyph(vertices: seq<real>, indices: seq<int>, nextOffset: int)

  /** The number of blocks of each letter; a letter outside D, O, G, E has none. */
  function BlockCount(letter: char): nat {
    if letter == 'G' then 5
    else if letter == 'D' || letter == 'O' || letter == 'E' then 4
    else 0
  }

  /** The hand-placed block table. */
  function Strokes(letter: char): (s: seq<Stroke>)
    ensures |s| == BlockCount(letter)
  {
    match letter
    case 'D' =>
      [Stroke(-0.35, 0.0, 0.2, 1.0),
       Stroke(-0.20, 0.4, 0.75, 0.2),
       Stroke(-0.20, -0.4, 0.75, 0.2),
       Stroke(0.25, 0.0, 0.2, 1.0)]
    case 'O' =>
      [Stroke(-0.4, 0.0, 0.2, 1.0),
       Stroke(0.4, 0.0, 0.2, 1.0),
       Stroke(0.0, 0.4, 0.85, 0.2),
       Stroke(0.0, -0.4, 0.85, 0.2)]
    case 'G' =>
      [Stroke(-0.35, 0.0, 0.2, 1.0),
       Stroke(0.0, 0.4, 0.9, 0.2),
       Stroke(0.0, -0.4, 0.75, 0.2),
       Stroke(0.25, 0.0, 0.5, 0.2),
       Stroke(0.40, -0.225, 0.2, 0.55)]
    case 'E' =>
      [Stroke(-0.3, 0.0, 0.20, 1.0),
       Stroke(0.10, 0.40, 0.80, 0.20),
       Stroke(0.05, 0.0, 0.60, 0.20),
       Stroke(0.10, -0.40, 0.80, 0.20)]
    case _ => []
  }

  /** The block a stroke becomes in a letter centred at x = `cx`, extruded `thick` deep
      around z = 0, with its indices rebased by `offset`. */
  function StrokePart(s: Stroke, cx: real, thick: real, offset: int): (p: Part)
    ensures IsBox(p, cx + s.x, s.y, 0.0, s.w, s.h, thick)
    ensures |p.indices| == 36
    ensures forall j :: 0 <= j < 36 ==> offset <= p.indices[j] < offset + 8
  {
    var x := cx + s.x;
    CreateBlockIsBox(x, s.y, 0.0, s.w, s.h, thick, offset);
    CreateBlock(x, s.y, 0.0, s.w, s.h, thick, offset)
  }

  /** The geometry of `strokes` emitted in order from vertex offset `startOffset`: each
      stroke's block appended, and the offset advanced by its 8 corners. */
  function EmitStrokes(strokes: seq<Stroke>, cx: real, thick: real, startOffset: int): (g: Glyph)
    ensures |g.vertices| == 24 * |strokes| && |g.indices| == 36 * |strokes|
    ensures g.nextOffset == startOffset + 8 * |strokes|
    ensures forall j :: 0 <= j < |g.indices| ==> startOffset <= g.indices[j] < g.nextOffset
    decreases |strokes|
  {
    if strokes == [] then Glyph([], [], startOffset)
    else
      var prev := EmitStrokes(strokes[..|strokes| - 1], cx, thick, startOffset);
      var part := StrokePart(strokes[|strokes| - 1], cx, thick, prev.nextOffset);
      Glyph(prev.vertices + part.vertices, prev.indices + part.indices, prev.nextOffset + 8)
  }

  /** A slice that ends within the left operand of a concatenation is a slice of it. */
  lemma SliceOfAppendLeft<T>(a: seq<T>, c: seq<T>, i: int, j: int)
    requires 0 <= i <= j <= |a|
    ensures (a + c)[i..j] == a[i..j]
  {
  }

  /** The slice past the left operand of a concatenation is the right operand. */
  lemma SliceOfAppendRight<T>(a: seq<T>, c: seq<T>)
    ensures (a + c)[|a|..|a| + |c|] == c
  {
  }

  /** Block `b` of the emitted geometry is exactly stroke `b`'s block, rebased to
      `startOffset + 8 * b`: parts are appended verbatim and in order. */
  lemma {:induction false} EmitStrokesBlock(strokes: seq<Stroke>, cx: real, thick: real, startOffset: int, b: int)
    requires 0 <= b < |strokes|
    ensures var g := EmitStrokes(strokes, cx, thick, startOffset);
      var part := StrokePart(strokes[b], cx, thick, startOffset + 8 * b);
      g.vertices[24 * b .. 24 * b + 24] == part.vertices &&
      g.indices[36 * b .. 36 * b + 36] == part.indices
    decreases |strokes|
  {
    var n := |strokes| - 1;
    var g := EmitStrokes(strokes, cx, thick, startOffset);
    var prev := EmitStrokes(strokes[..n], cx, thick, startOffset);
    var last := StrokePart(strokes[n], cx, thick, prev.nextOffset);
    assert g == Glyph(prev.vertices + last.vertices, prev.indices + last.indices, prev.nextOffset + 8);
    var part := StrokePart(strokes[b], cx, thick, startOffset + 8 * b);
    if b < n {
      EmitStrokesBlock(strokes[..n], cx, thick, startOffset, b);
      assert strokes[..n][b] == strokes[b];
      SliceOfAppendLeft(prev.vertices, last.vertices, 24 * b, 24 * b + 24);
      SliceOfAppendLeft(prev.indices, last.indices, 36 * b, 36 * b + 36);
    } else {
      assert part == last;
      SliceOfAppendRight(prev.vertices, last.vertices);
      SliceOfAppendRight(prev.indices, last.indices);
    }
  }

  /** The mutable state of one `generateLetterGeometry` call: the locals `verts`, `inds`
      and `offset` that its helper `add` updates, with the helper as a method. */
  class LetterBuilder {
    const cx: real
    const thick: real
    ghost const startOffset: int
    var verts: seq<real>
    var inds: seq<int>
    var offset: int
    /** The strokes added so far. */
    ghost var added: seq<Stroke>

    ghost predicate Valid()
      reads this
    {
      Glyph(verts, inds, offset) == EmitStrokes(added, cx, thick, startOffset)
    }

    constructor (cx: real, thick: real, startOffset: int)
      ensures Valid() && added == []
      ensures this.cx == cx && this.thick == thick && this.startOffset == startOffset
      ensures verts == [] && inds == [] && offset == startOffset
    {
      this.cx := cx;
      this.thick := thick;
      this.startOffset := startOffset;
      verts, inds, offset := [], [], startOffset;
      added := [];
    }

    /** `add(x, y, w, h)`: appends the block of that stroke at the current offset and
        advances the offset by 8. */
    method Add(x: real, y: real, w: real, h: real)
      requires Valid()
      modifies this
      ensures Valid() && added == old(added) + [Stroke(x, y, w, h)]
      ensures offset == old(offset) + 8
    {
      var part := CreateBlock(cx + x, y, 0.0, w, h, thick, offset);
      verts := verts + part.vertices;
      inds := inds + part.indices;
      offset := offset + 8;
      added := added + [Stroke(x, y, w, h)];
      assert added[..|added| - 1] == old(added);
    }
  }

  /** The `case "D"` arm of `generateLetterGeometry`'s switch: the `add` calls for D. */
  method AddBlocksD(b: LetterBuilder)
    requires b.Valid()
    modifies b
    ensures b.Valid() && b.added == old(b.added) + Strokes('D')
  {
    b.Add(-0.35, 0.0, 0.2, 1.0);
    b.Add(-0.20, 0.4, 0.75, 0.2);
    b.Add(-0.20, -0.4, 0.75, 0.2);
    b.Add(0.25, 0.0, 0.2, 1.0);
  }

  /** The `case "O"` arm of `generateLetterGeometry`'s switch: the `add` calls for O. */
  method AddBlocksO(b: LetterBuilder)
    requires b.Valid()
    modifies b
    ensures b.Valid() && b.added == old(b.added) + Strokes('O')
  {
    b.Add(-0.4, 0.0, 0.2, 1.0);
    b.Add(0.4, 0.0, 0.2, 1.0);
    b.Add(0.0, 0.4, 0.85, 0.2);
    b.Add(0.0, -0.4, 0.85, 0.2);
  }

  /** The `case "G"` arm of `generateLetterGeometry`'s switch: the `add` calls for G. */
  method AddBlocksG(b: LetterBuilder)
    requires b.Valid()
    modifies b
    ensures b.Valid() && b.added == old(b.added) + Strokes('G')
  {
    b.Add(-0.35, 0.0, 0.2, 1.0);
    b.Add(0.0, 0.4, 0.9, 0.2);
    b.Add(0.0, -0.4, 0.75, 0.2);
    b.Add(0.25, 0.0, 0.5, 0.2);
    b.Add(0.40, -0.225, 0.2, 0.55);
  }

  /** The `case "E"` arm of `generateLetterGeometry`'s switch: the `add` calls for E. */
  method AddBlocksE(b: LetterBuilder)
    requires b.Valid()
    modifies b
    ensures b.Valid() && b.added == old(b.added) + Strokes('E')
  {
    b.Add(-0.3, 0.0, 0.20, 1.0);
    b.Add(0.10, 0.40, 0.80, 0.20);
    b.Add(0.05, 0.0, 0.60, 0.20);
    b.Add(0.10, -0.40, 0.80, 0.20);
  }

  /** `generateLetterGeometry`: the blocks of `letter` in table order, centred at x = `cx`,
      extruded `thick` deep, with vertex indices starting at `startOffset`. A letter with
      no table entry yields no geometry and leaves the offset unchanged. */
  method GenerateLetterGeometry(letter: char, cx: real, startOffset: int, thick: real) returns (g: Glyph)
    ensures g == EmitStrokes(Strokes(letter), cx, thick, startOffset)
  {
    var b := new LetterBuilder(cx, thick, startOffset);
    match letter {
      case 'D' => AddBlocksD(b);
      case 'O' => AddBlocksO(b);
      case 'G' => AddBlocksG(b);
      case 'E' => AddBlocksE(b);
      case _ =>
    }
    assert b.added == Strokes(letter);
    g := Glyph(b.verts, b.inds, b.offset);
  }
}
