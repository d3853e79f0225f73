/** Laying a word out left to right: letter widths, the gap between letters, centring the
    whole word on x = 0, and concatenating the letters' geometry into one mesh. */
module Layout {
  import opened Letters

  /** The word the scene shows and the horizontal gap between adjacent letters. */
  const Word: string := "DOGE"
  const Gap: real := 0.35

  /** `getLetterWidth`: every letter is the same width, whatever the letter. */
  function LetterWidth(c: char): (w: real)
    ensures w > 0.0
  {
    0.75
  }

  /** The summed width of the letters of `s`, without gaps. */
  function SumWidths(s: string): real
    decreases |s|
  {
    if s == [] then 0.0 else SumWidths(s[..|s| - 1]) + LetterWidth(s[|s| - 1])
  }

  /** The width of `n` gaps laid end to end. */
  function Gaps(n: nat, gap: real): real {
    if n == 0 then 0.0 else Gaps(n - 1, gap) + gap
  }

  /** The width the word spans: its letters plus one gap between each adjacent pair. */
  function TotalWidth(text: string, gap: real): real {
    if text == [] then 0.0 else SumWidths(text) + Gaps(|text| - 1, gap)
  }

  /** Where letter `i` starts: the cursor begins at -total/2 and each earlier letter
      advances it by its width and one gap. */
  function Cursor(text: string, gap: real, i: int): real
    requires 0 <= i <= |text|
    decreases i
  {
    if i == 0 then -TotalWidth(text, gap) / 2.0
    else Cursor(text, gap, i - 1) + LetterWidth(text[i - 1]) + gap
  }

  /** The x coordinate letter `i` is centred at. */
  function LetterCentre(text: string, gap: real, i: int): real
    requires 0 <= i < |text|
  {
    Cursor(text, gap, i) + LetterWidth(text[i]) / 2.0
  }

  /** The number of blocks of all the letters of `s`. */
  function TotalBlocks(s: string): nat
    decreases |s|
  {
    if s == [] then 0 else TotalBlocks(s[..|s| - 1]) + BlockCount(s[|s| - 1])
  }

  /** The mesh of the first `k` letters of the word, each letter's geometry appended in
      order and its indices continuing from the vertices before it. */
  function LayoutPrefix(text: string, gap: real, thick: real, k: int): (g: Glyph)
    requires 0 <= k <= |text|
    ensures g.nextOffset == 8 * TotalBlocks(text[..k])
    ensures |g.vertices| == 24 * TotalBlocks(text[..k]) && |g.indices| == 36 * TotalBlocks(text[..k])
    ensures forall j :: 0 <= j < |g.indices| ==> 0 <= g.indices[j] < g.nextOffset
    decreases k
  {
    if k == 0 then Glyph([], [], 0)
    else
      var prev := LayoutPrefix(text, gap, thick, k - 1);
      assert text[..k][..k - 1] == text[..k - 1];
      var letter := EmitStrokes(Strokes(text[k - 1]), LetterCentre(text, gap, k - 1), thick, prev.nextOffset);
      Glyph(prev.vertices + letter.vertices, prev.indices + letter.indices, letter.nextOffset)
  }

  /** The mesh of the whole word. */
  function WordMesh(text: string, gap: real, thick: real): Glyph {
    LayoutPrefix(text, gap, thick, |text|)
  }

  /** Adding letters never removes blocks. */
  lemma {:induction false} TotalBlocksMonotone(text: string, i: int, k: int)
    requires 0 <= i <= k <= |text|
    ensures TotalBlocks(text[..i]) <= TotalBlocks(text[..k])
    decreases k - i
  {
    if i < k {
      TotalBlocksMonotone(text, i, k - 1);
      assert text[..k][..k - 1] == text[..k - 1];
    }
  }

  /** The geometry letter `i` contributes: its strokes at its centre, emitted from vertex
      offset 8 * (blocks before it). */
  function LetterMesh(text: string, gap: real, thick: real, i: int): (g: Glyph)
    requires 0 <= i < |text|
    ensures |g.vertices| == 24 * BlockCount(text[i]) && |g.indices| == 36 * BlockCount(text[i])
    ensures forall j :: 0 <= j < |g.indices| ==>
      8 * TotalBlocks(text[..i]) <= g.indices[j] < 8 * TotalBlocks(text[..i]) + 8 * BlockCount(text[i])
  {
    EmitStrokes(Strokes(text[i]), LetterCentre(text, gap, i), thick, 8 * TotalBlocks(text[..i]))
  }

  /** One more letter only appends to the mesh: every stretch of the first `k - 1`
      letters' vertices and indices keeps its place and its contents. */
  lemma LayoutPrefixKeeps(text: string, gap: real, thick: real, k: int, a: int, b: int, c: int, d: int)
    requires 0 < k <= |text|
    requires 0 <= a <= b <= 24 * TotalBlocks(text[..k - 1])
    requires 0 <= c <= d <= 36 * TotalBlocks(text[..k - 1])
    ensures var g := LayoutPrefix(text, gap, thick, k);
      var prev := LayoutPrefix(text, gap, thick, k - 1);
      b <= |g.vertices| && g.vertices[a..b] == prev.vertices[a..b] &&
      d <= |g.indices| && g.indices[c..d] == prev.indices[c..d]
  {
    var prev := LayoutPrefix(text, gap, thick, k - 1);
    var last := EmitStrokes(Strokes(text[k - 1]), LetterCentre(text, gap, k - 1), thick, prev.nextOffset);
    SliceOfAppendLeft(prev.vertices, last.vertices, a, b);
    SliceOfAppendLeft(prev.indices, last.indices, c, d);
  }

  /** The last letter's vertices of a laid-out prefix are that letter's own, appended at the end. */
  lemma LayoutPrefixLastVertices(text: string, gap: real, thick: real, i: int)
    requires 0 <= i < |text|
    ensures var g := LayoutPrefix(text, gap, thick, i + 1);
      var lo := TotalBlocks(text[..i]);
      var hi := TotalBlocks(text[..i + 1]);
      lo <= hi && 24 * hi == |g.vertices| &&
      g.vertices[24 * lo .. 24 * hi] == LetterMesh(text, gap, thick, i).vertices
  {
    assert text[..i + 1][..i] == text[..i];
    SliceOfAppendRight(LayoutPrefix(text, gap, thick, i).vertices, LetterMesh(text, gap, thick, i).vertices);
  }

  /** The last letter's indices of a laid-out prefix are that letter's own, appended at the end. */
  lemma LayoutPrefixLastIndices(text: string, gap: real, thick: real, i: int)
    requires 0 <= i < |text|
    ensures var g := LayoutPrefix(text, gap, thick, i + 1);
      var lo := TotalBlocks(text[..i]);
      var hi := TotalBlocks(text[..i + 1]);
      lo <= hi && 36 * hi == |g.indices| &&
      g.indices[36 * lo .. 36 * hi] == LetterMesh(text, gap, thick, i).indices
  {
    assert text[..i + 1][..i] == text[..i];
    SliceOfAppendRight(LayoutPrefix(text, gap, thick, i).indices, LetterMesh(text, gap, thick, i).indices);
  }

  /** Letter `i` of a laid-out prefix sits in its own stretch of the mesh: its vertices
      and indices are exactly that letter's own mesh, emitted from vertex offset
      8 * (blocks before it), and later letters never move or change them. This is what
      carrying the vertex offset from letter to letter achieves. */
  lemma {:induction false} LayoutPrefixLetter(text: string, gap: real, thick: real, k: int, i: int)
    requires 0 <= i < k <= |text|
    ensures var g := LayoutPrefix(text, gap, thick, k);
      var lo := TotalBlocks(text[..i]);
      var hi := TotalBlocks(text[..i + 1]);
      lo <= hi && 24 * hi <= |g.vertices| && 36 * hi <= |g.indices| &&
      g.vertices[24 * lo .. 24 * hi] == LetterMesh(text, gap, thick, i).vertices &&
      g.indices[36 * lo .. 36 * hi] == LetterMesh(text, gap, thick, i).indices
    decreases k
  {
    if i == k - 1 {
      LayoutPrefixLastVertices(text, gap, thick, i);
      LayoutPrefixLastIndices(text, gap, thick, i);
    } else {
      LayoutPrefixLetter(text, gap, thick, k - 1, i);
      TotalBlocksMonotone(text, i + 1, k - 1);
      var lo := TotalBlocks(text[..i]);
      var hi := TotalBlocks(text[..i + 1]);
      LayoutPrefixKeeps(text, gap, thick, k, 24 * lo, 24 * hi, 36 * lo, 36 * hi);
    }
  }

  /** A stretch of a sequence equal to `t` inherits the bounds of `t`'s elements. */
  lemma SliceWithin(s: seq<int>, lo: int, hi: int, t: seq<int>, a: int, b: int)
    requires 0 <= lo <= hi <= |s| && s[lo..hi] == t
    requires forall j :: 0 <= j < |t| ==> a <= t[j] < b
    ensures forall j :: lo <= j < hi ==> a <= s[j] < b
  {
    forall j | lo <= j < hi
      ensures a <= s[j] < b
    {
      assert s[j] == t[j - lo];
    }
  }

  /** The indices of letter `i` of a laid-out prefix point only at that letter's own
      vertices, [8 * (blocks before it), 8 * (blocks up to and including it)). */
  lemma LayoutPrefixLetterIndices(text: string, gap: real, thick: real, k: int, i: int)
    requires 0 <= i < k <= |text|
    ensures var g := LayoutPrefix(text, gap, thick, k);
      var lo := TotalBlocks(text[..i]);
      var hi := TotalBlocks(text[..i + 1]);
      36 * hi <= |g.indices| &&
      forall j :: 36 * lo <= j < 36 * hi ==> 8 * lo <= g.indices[j] < 8 * hi
  {
    var g := LayoutPrefix(text, gap, thick, k);
    var lo := TotalBlocks(text[..i]);
    var hi := TotalBlocks(text[..i + 1]);
    assert text[..i + 1][..i] == text[..i];
    LayoutPrefixLetter(text, gap, thick, k, i);
    SliceWithin(g.indices, 36 * lo, 36 * hi, LetterMesh(text, gap, thick, i).indices, 8 * lo, 8 * hi);
  }

  /** JavaScript's ToUint16 conversion of an integer: its value modulo 2^16. */
  function ToUint16(n: int): (r: int)
    ensures 0 <= r < 65536
    ensures (n - r) % 65536 == 0
    ensures r == n <==> 0 <= n < 65536
  {
    n % 65536
  }

  /** `new Uint16Array(idx)`: every element converted by ToUint16. The conversion is
      lossless exactly when every element already lies in [0, 65536). */
  function ToUint16Array(s: seq<int>): (r: seq<int>)
    ensures |r| == |s|
    ensures forall j :: 0 <= j < |r| ==> r[j] == ToUint16(s[j])
    ensures forall j :: 0 <= j < |r| ==> 0 <= r[j] < 65536
    ensures r == s <==> forall j :: 0 <= j < |s| ==> 0 <= s[j] < 65536
  {
    var r := seq(|s|, j requires 0 <= j < |s| => ToUint16(s[j]));
    assert (forall j :: 0 <= j < |s| ==> 0 <= s[j] < 65536) ==> r == s by {
      if forall j :: 0 <= j < |s| ==> 0 <= s[j] < 65536 {
        forall j | 0 <= j < |s| ensures r[j] == s[j] {
          assert ToUint16(s[j]) == s[j];
        }
      }
    }
    r
  }

  /** The first loop of the layout in `initWebGL`: the word's total width, each letter's
      width plus a gap after every letter but the last. */
  method MeasureWord(text: string, gap: real) returns (total: real)
    ensures total == TotalWidth(text, gap)
  {
    total := 0.0;
    var i := 0;
    while i < |text|
      invariant 0 <= i <= |text|
      invariant i < |text| ==> total == SumWidths(text[..i]) + Gaps(i, gap)
      invariant i == |text| ==> total == TotalWidth(text, gap)
    {
      WidthStep(text, gap, i, total);
      total := total + LetterWidth(text[i]);
      if i < |text| - 1 {
        total := total + gap;
      }
      i := i + 1;
    }
  }

  /** The layout part of `initWebGL`: measures the word, then emits each letter at its
      centre, concatenating vertices and indices and carrying the vertex offset on;
      finally records the index count and narrows the indices to 16 bits. */
  method LayoutWord(text: string, gap: real, thick: real)
    returns (g: Glyph, indicesLength: int, indexBuffer: seq<int>)
    ensures g == WordMesh(text, gap, thick)
    ensures indicesLength == |g.indices|
    ensures indexBuffer == ToUint16Array(g.indices)
  {
    var total := MeasureWord(text, gap);
    assert text[..|text|] == text;
    var cx := -total / 2.0;

    var verts: seq<real> := [];
    var idx: seq<int> := [];
    var vOff := 0;
    var k := 0;
    while k < |text|
      invariant 0 <= k <= |text|
      invariant cx == Cursor(text, gap, k)
      invariant Glyph(verts, idx, vOff) == LayoutPrefix(text, gap, thick, k)
    {
      var ch := text[k];
      var w := LetterWidth(ch);
      var letter := GenerateLetterGeometry(ch, cx + w / 2.0, vOff, thick);
      assert cx + w / 2.0 == LetterCentre(text, gap, k);
      assert LayoutPrefix(text, gap, thick, k + 1) == Glyph(verts + letter.vertices, idx + letter.indices, letter.nextOffset);
      verts := verts + letter.vertices;
      idx := idx + letter.indices;
      vOff := letter.nextOffset;
      cx := cx + w + gap;
      k := k + 1;
    }
    g := Glyph(verts, idx, vOff);
    indicesLength := |idx|;
    indexBuffer := ToUint16Array(idx);
  }

  /** One step of the width sum: adding letter `i`, and a gap when another letter
      follows, extends the sum of the letters before it to the next prefix, or to the
      whole word's width after the last letter. */
  lemma WidthStep(text: string, gap: real, i: int, total: real)
    requires 0 <= i < |text|
    requires total == SumWidths(text[..i]) + Gaps(i, gap)
    ensures i + 1 < |text| ==>
      total + LetterWidth(text[i]) + gap == SumWidths(text[..i + 1]) + Gaps(i + 1, gap)
    ensures i + 1 == |text| ==> total + LetterWidth(text[i]) == TotalWidth(text, gap)
  {
    assert text[..i + 1][..i] == text[..i];
    assert text[..|text|] == text;
  }

  /** In closed form the cursor before letter `i` is -total/2 plus the widths of the
      letters before it plus one gap per letter before it. */
  lemma {:induction false} CursorClosedForm(text: string, gap: real, i: int)
    requires 0 <= i <= |text|
    ensures Cursor(text, gap, i) == -TotalWidth(text, gap) / 2.0 + SumWidths(text[..i]) + Gaps(i, gap)
    decreases i
  {
    if i == 0 {
      assert text[..0] == [];
    } else {
      CursorClosedForm(text, gap, i - 1);
      assert text[..i][..i - 1] == text[..i - 1];
    }
  }

  /** `n` gaps span `n` times the gap. */
  lemma {:induction false} GapsLinear(n: nat, gap: real)
    ensures Gaps(n, gap) == (n as real) * gap
  {
    if n > 0 {
      GapsLinear(n - 1, gap);
      assert (n as real) * gap == ((n - 1) as real) * gap + gap;
    }
  }

  /** With every letter 0.75 wide, the letters of `s` span 0.75 per letter. */
  lemma {:induction false} SumWidthsUniform(s: string)
    ensures SumWidths(s) == 0.75 * (|s| as real)
    decreases |s|
  {
    if s != [] {
      SumWidthsUniform(s[..|s| - 1]);
    }
  }

  /** The advance cells are centred: the first letter's cell (its `LetterWidth`, centred
      on its centre) starts at -total/2 and the last letter's cell ends at +total/2. The
      drawn blocks need not stay inside their cells; see `DogeDrawnExtent`. */
  lemma WordIsCentred(text: string, gap: real)
    requires |text| > 0
    ensures LetterCentre(text, gap, 0) - LetterWidth(text[0]) / 2.0 == -TotalWidth(text, gap) / 2.0
    ensures LetterCentre(text, gap, |text| - 1) + LetterWidth(text[|text| - 1]) / 2.0 == TotalWidth(text, gap) / 2.0
  {
    var n := |text|;
    CursorClosedForm(text, gap, n - 1);
    assert text[..n][..n - 1] == text[..n - 1];
    assert text[..n] == text;
  }

  /** Adjacent letters are one gap apart: the distance between their centres is half of
      each width plus the gap. */
  lemma AdjacentSpacing(text: string, gap: real, i: int)
    requires 0 <= i < |text| - 1
    ensures LetterCentre(text, gap, i + 1) - LetterCentre(text, gap, i)
            == LetterWidth(text[i]) / 2.0 + gap + LetterWidth(text[i + 1]) / 2.0
  {
  }

  /** With w = 0.75, the word spans total = w n + gap (n - 1), and letter i is centred
      at -total/2 + w/2 + i (w + gap). */
  lemma LetterCentreClosedForm(text: string, gap: real, i: int)
    requires 0 <= i < |text|
    ensures TotalWidth(text, gap) == 0.75 * (|text| as real) + gap * ((|text| - 1) as real)
    ensures LetterCentre(text, gap, i) == -TotalWidth(text, gap) / 2.0 + 0.75 / 2.0 + (i as real) * (0.75 + gap)
  {
    CursorClosedForm(text, gap, i);
    GapsLinear(i, gap);
    GapsLinear(|text| - 1, gap);
    SumWidthsUniform(text);
    SumWidthsUniform(text[..i]);
    assert (i as real) * (0.75 + gap) == 0.75 * (i as real) + (i as real) * gap;
  }

  /** Gaps laid end to end add up. */
  lemma {:induction false} GapsAdd(a: nat, b: nat, gap: real)
    ensures Gaps(a, gap) + Gaps(b, gap) == Gaps(a + b, gap)
    decreases b
  {
    if b > 0 {
      GapsAdd(a, b - 1, gap);
    }
  }

  /** Letters i and n-1-i sit symmetrically about x = 0. */
  lemma CentresSymmetric(text: string, gap: real, i: int)
    requires 0 <= i < |text|
    ensures LetterCentre(text, gap, i) + LetterCentre(text, gap, |text| - 1 - i) == 0.0
  {
    var n := |text|;
    var j := n - 1 - i;
    CursorClosedForm(text, gap, i);
    CursorClosedForm(text, gap, j);
    SumWidthsUniform(text);
    SumWidthsUniform(text[..i]);
    SumWidthsUniform(text[..j]);
    GapsAdd(i, j, gap);
  }

  /** The letters of "DOGE" have 4 + 4 + 5 + 4 = 17 blocks. */
  lemma DogeBlocks()
    ensures TotalBlocks(Word) == 17
  {
    assert Word[..3] == "DOG" && Word[..3][..2] == "DO" && Word[..3][..2][..1] == "D";
    assert TotalBlocks("D") == 4;
    assert TotalBlocks("DO") == 8;
    assert TotalBlocks("DOG") == 13;
  }

  /** The "DOGE" mesh: 17 blocks of 8 vertices (vOff = 136), 612 indices and 408
      coordinates; every index is below 136, so narrowing to Uint16 keeps every index. */
  lemma DogeLayout(thick: real)
    ensures var g := WordMesh(Word, Gap, thick);
      g.nextOffset == 136 && |g.indices| == 612 && |g.vertices| == 408 &&
      (forall j :: 0 <= j < |g.indices| ==> 0 <= g.indices[j] < 136) &&
      ToUint16Array(g.indices) == g.indices
  {
    DogeBlocks();
    assert Word[..|Word|] == Word;
  }

  /** The drawn "DOGE" is not centred on x = 0. No block of any letter reaches further
      left than 0.2 outside the word's cells, nor further right than 0.125 outside, and
      D's top bar and E's top bar reach those bounds. So the drawn word spans
      [-total/2 - 0.2, total/2 + 0.125], whose midpoint is 0.0375 left of x = 0. */
  lemma DogeDrawnExtent()
    ensures var total := TotalWidth(Word, Gap);
      (forall i, s :: 0 <= i < |Word| && s in Strokes(Word[i]) ==>
        -total / 2.0 - 0.2 <= LetterCentre(Word, Gap, i) + s.x - s.w / 2.0 &&
        LetterCentre(Word, Gap, i) + s.x + s.w / 2.0 <= total / 2.0 + 0.125) &&
      LetterCentre(Word, Gap, 0) + Strokes('D')[1].x - Strokes('D')[1].w / 2.0 == -total / 2.0 - 0.2 &&
      LetterCentre(Word, Gap, 3) + Strokes('E')[1].x + Strokes('E')[1].w / 2.0 == total / 2.0 + 0.125
  {
    var total := TotalWidth(Word, Gap);
    LetterCentreClosedForm(Word, Gap, 0);
    LetterCentreClosedForm(Word, Gap, 1);
    LetterCentreClosedForm(Word, Gap, 2);
    LetterCentreClosedForm(Word, Gap, 3);
    assert total == 4.05;
    assert LetterCentre(Word, Gap, 0) == -1.65 && LetterCentre(Word, Gap, 1) == -0.55;
    assert LetterCentre(Word, Gap, 2) == 0.55 && LetterCentre(Word, Gap, 3) == 1.65;
    forall i, s | 0 <= i < |Word| && s in Strokes(Word[i])
      ensures -total / 2.0 - 0.2 <= LetterCentre(Word, Gap, i) + s.x - s.w / 2.0
      ensures LetterCentre(Word, Gap, i) + s.x + s.w / 2.0 <= total / 2.0 + 0.125
    {
      assert Word[0] == 'D' && Word[1] == 'O' && Word[2] == 'G' && Word[3] == 'E';
    }
  }
}
