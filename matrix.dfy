/** 4x4 matrices stored as 16 cells in column-major order (cell 4*col + row). */
module Matrix {

  /** The diagonal cells of a 4x4 matrix in column-major order. */
  predicate IsDiagonalCell(i: int) {
    i == 0 || i == 5 || i == 10 || i == 15
  }

  /** The identity matrix: ones on the diagonal (cells 0, 5, 10 and 15), zeros elsewhere. */
  function Identity(): (m: seq<real>)
    ensures |m| == 16
    ensures forall i :: 0 <= i < 16 ==> m[i] == if IsDiagonalCell(i) then 1.0 else 0.0
  {
    [1.0, 0.0, 0.0, 0.0,
     0.0, 1.0, 0.0, 0.0,
     0.0, 0.0, 1.0, 0.0,
     0.0, 0.0, 0.0, 1.0]
  }

  /** The cells a uniform scale multiplies: the first three diagonal cells. */
  predicate IsScaledCell(i: int) {
    i == 0 || i == 5 || i == 10
  }

  /** The value of a matrix after `ScaleMatrix(m, s)`. */
  function Scaled(m: seq<real>, s: real): (r: seq<real>)
    requires |m| >= 11
    ensures |r| == |m|
  {
    m[0 := m[0] * s][5 := m[5] * s][10 := m[10] * s]
  }

  /** Scaling multiplies exactly the cells 0, 5 and 10 by the factor. */
  lemma ScaledCells(m: seq<real>, s: real)
    requires |m| >= 11
    ensures forall i :: 0 <= i < |m| && IsScaledCell(i) ==> Scaled(m, s)[i] == m[i] * s
    ensures forall i :: 0 <= i < |m| && !IsScaledCell(i) ==> Scaled(m, s)[i] == m[i]
  {
  }

  /** Multiplies cells 0, 5 and 10 of `m` by `s` in place; every other cell, the
      translation column included, is left as it was. */
  method ScaleMatrix(m: array<real>, s: real)
    requires m.Length >= 11
    modifies m
    ensures m[..] == Scaled(old(m[..]), s)
  {
    ghost var before := m[..];
    m[0] := m[0] * s;
    m[5] := m[5] * s;
    m[10] := m[10] * s;
    assert forall i :: 0 <= i < m.Length ==> m[..][i] == Scaled(before, s)[i];
  }

  /** A fresh array holding the identity matrix. */
  method NewIdentity() returns (m: array<real>)
    ensures fresh(m)
    ensures m[..] == Identity()
  {
    m := new real[16](i requires 0 <= i < 16 => Identity()[i]);
  }

  /** Scaling twice multiplies the factors; scaling by one changes nothing. */
  lemma ScaledComposes(m: seq<real>, a: real, b: real)
    requires |m| >= 11
    ensures Scaled(Scaled(m, a), b) == Scaled(m, a * b)
    ensures Scaled(m, 1.0) == m
  {
    var lhs, rhs := Scaled(Scaled(m, a), b), Scaled(m, a * b);
    forall i | 0 <= i < |m| ensures lhs[i] == rhs[i] {
      if IsScaledCell(i) {
        assert m[i] * a * b == m[i] * (a * b);
      }
    }
    assert lhs == rhs;
  }

  /** Scaling the identity gives the diagonal (s, s, s, 1). */
  lemma ScaledIdentity(s: real)
    ensures forall i :: 0 <= i < 16 ==>
      Scaled(Identity(), s)[i] == if i == 15 then 1.0 else if IsDiagonalCell(i) then s else 0.0
  {
  }
}
