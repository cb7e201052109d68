/** Two-dimensional linear algebra over the reals (t1_parallel_ankle.hpp's Vec2, Mat2, invert, mul, mulT). */
module Plane {
  import opened Numbers

  datatype V2 = V2(x: real, y: real) {
    function Get(i: nat): real
      requires i < 2
    {
      if i == 0 then x else y
    }

    function Set(i: nat, v: real): V2
      requires i < 2
    {
      if i == 0 then V2(v, y) else V2(x, v)
    }
  }

  // Rows (xx, xy) and (yx, yy).
  datatype M2 = M2(xx: real, xy: real, yx: real, yy: real) {
    function Get(i: nat, k: nat): real
      requires i < 2 && k < 2
    {
      if i == 0 then (if k == 0 then xx else xy) else (if k == 0 then yx else yy)
    }

    function Set(i: nat, k: nat, v: real): M2
      requires i < 2 && k < 2
    {
      if i == 0 then (if k == 0 then this.(xx := v) else this.(xy := v))
      else (if k == 0 then this.(yx := v) else this.(yy := v))
    }
  }

  const ORIGIN := V2(0.0, 0.0)

  function Dot(a: real, b: real, x: real, y: real): real {
    a * x + b * y
  }

  function Plus(a: V2, b: V2): V2 {
    V2(a.x + b.x, a.y + b.y)
  }

  function Minus(a: V2, b: V2): V2 {
    V2(a.x - b.x, a.y - b.y)
  }

  function Half(a: V2): V2 {
    V2(0.5 * a.x, 0.5 * a.y)
  }

  function Opposite(a: V2): V2 {
    V2(-a.x, -a.y)
  }

  // mul
  function Apply(m: M2, v: V2): V2 {
    V2(Dot(m.xx, m.xy, v.x, v.y), Dot(m.yx, m.yy, v.x, v.y))
  }

  // mulT
  function ApplyT(m: M2, v: V2): V2 {
    V2(Dot(m.xx, m.yx, v.x, v.y), Dot(m.xy, m.yy, v.x, v.y))
  }

  function Det(m: M2): real {
    Dot(m.xx, -m.xy, m.yy, m.yx)
  }

  // invert and the Python twin's abs(det) < 1e-9 give up on these.
  predicate Singular(m: M2) {
    Abs(Det(m)) < 0.000000001
  }

  // invert, where it does not give up.
  function Inverse(m: M2): M2
    requires Det(m) != 0.0
  {
    var d := Det(m);
    M2(m.yy / d, -m.xy / d, -m.yx / d, m.xx / d)
  }

  // A row of the adjugate over the determinant.
  lemma RowCancels(p: real, q: real, s: real, t: real, d: real, x: real)
    requires d != 0.0 && Dot(p, q, s, t) == d * x
    ensures Dot(p / d, q / d, s, t) == x
  {
    var a, b := p / d, q / d;
    assert a * d == p && b * d == q;
    assert (a * s + b * t) * d == a * d * s + b * d * t;
  }

  lemma DotOver(p: real, q: real, s: real, t: real, d: real)
    requires d != 0.0
    ensures Dot(p / d, q / d, s, t) == Dot(p, q, s, t) / d
  {
    assert d * (Dot(p, q, s, t) / d) == Dot(p, q, s, t);
    RowCancels(p, q, s, t, d, Dot(p, q, s, t) / d);
  }

  lemma ColumnCancels(a: real, b: real, p: real, q: real, d: real, x: real)
    requires d != 0.0 && Dot(a, b, p, q) == d * x
    ensures Dot(a, b, p / d, q / d) == x
  {
    assert Dot(a, b, p, q) == Dot(p, q, a, b);
    RowCancels(p, q, a, b, d, x);
    assert Dot(a, b, p / d, q / d) == Dot(p / d, q / d, a, b);
  }

  // The inverse undoes a matrix.
  lemma InverseUndoes(m: M2, v: V2)
    requires Det(m) != 0.0
    ensures Apply(Inverse(m), Apply(m, v)) == v
  {
    var d, u := Det(m), Apply(m, v);
    Adjugate(m, v);
    RowCancels(m.yy, -m.xy, u.x, u.y, d, v.x);
    RowCancels(-m.yx, m.xx, u.x, u.y, d, v.y);
  }

  lemma Adjugate(m: M2, v: V2)
    ensures Dot(m.yy, -m.xy, Apply(m, v).x, Apply(m, v).y) == Det(m) * v.x
    ensures Dot(-m.yx, m.xx, Apply(m, v).x, Apply(m, v).y) == Det(m) * v.y
  {}

  // So it does transposed, from the other side.
  lemma TransposeUndoes(m: M2, v: V2)
    requires Det(m) != 0.0
    ensures ApplyT(m, ApplyT(Inverse(m), v)) == v
  {
    var d := Det(m);
    var p, q := Dot(m.yy, -m.yx, v.x, v.y), Dot(-m.xy, m.xx, v.x, v.y);
    DotOver(m.yy, -m.yx, v.x, v.y, d);
    DotOver(-m.xy, m.xx, v.x, v.y, d);
    AdjugateT(m, v);
    ColumnCancels(m.xx, m.yx, p, q, d, v.x);
    ColumnCancels(m.xy, m.yy, p, q, d, v.y);
  }

  // And from this side, as the inverse of the transpose.
  lemma TransposeUndone(m: M2, v: V2)
    requires Det(m) != 0.0
    ensures ApplyT(Inverse(m), ApplyT(m, v)) == v
  {
    var t := M2(m.xx, m.yx, m.xy, m.yy);
    SameDet(m, t);
    InverseUndoes(t, v);
  }

  lemma SameDet(m: M2, t: M2)
    requires t == M2(m.xx, m.yx, m.xy, m.yy)
    ensures Det(t) == Det(m)
  {}

  lemma AdjugateT(m: M2, v: V2)
    ensures Dot(m.xx, m.yx, Dot(m.yy, -m.yx, v.x, v.y), Dot(-m.xy, m.xx, v.x, v.y)) == Det(m) * v.x
    ensures Dot(m.xy, m.yy, Dot(m.yy, -m.yx, v.x, v.y), Dot(-m.xy, m.xx, v.x, v.y)) == Det(m) * v.y
  {}

  // numpy.linalg.solve, by Cramer's rule.
  function Solve(m: M2, r: V2): V2
    requires Det(m) != 0.0
  {
    V2(Dot(m.yy, -m.xy, r.x, r.y) / Det(m), Dot(-m.yx, m.xx, r.x, r.y) / Det(m))
  }

  // It solves the system, and is what multiplying with the inverse gives.
  lemma SolveIsInverse(m: M2, r: V2)
    requires Det(m) != 0.0
    ensures Solve(m, r) == Apply(Inverse(m), r)
    ensures Apply(m, Solve(m, r)) == r
  {
    var d := Det(m);
    DotOver(m.yy, -m.xy, r.x, r.y, d);
    DotOver(-m.yx, m.xx, r.x, r.y, d);
    var p, q := Dot(m.yy, -m.xy, r.x, r.y), Dot(-m.yx, m.xx, r.x, r.y);
    AdjugateRight(m, r);
    ColumnCancels(m.xx, m.xy, p, q, d, r.x);
    ColumnCancels(m.yx, m.yy, p, q, d, r.y);
  }

  lemma AdjugateRight(m: M2, r: V2)
    ensures Dot(m.xx, m.xy, Dot(m.yy, -m.xy, r.x, r.y), Dot(-m.yx, m.xx, r.x, r.y)) == Det(m) * r.x
    ensures Dot(m.yx, m.yy, Dot(m.yy, -m.xy, r.x, r.y), Dot(-m.yx, m.xx, r.x, r.y)) == Det(m) * r.y
  {}
}
