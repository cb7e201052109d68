/** The two Newton inverses of the T1 ankle map (serialAngles in t1_parallel_ankle.hpp, serial_angles in
t1_parallel_ankle.py) and their two ways to wrap an angle.

Each is a method with the source's loops, proved against a recursive function of its own; the lemmas at the
end show that the two functions agree. The kinematics (trigonometry) and the length of a vector are
parameters: what is proved holds of any.
*/
module Newton {
  import opened Numbers
  import opened Plane
  import opened Gates

  // --- wrap -------------------------------------------------------------------------------------------

  const PI := 3.14159265358979323846

  function Trunc(x: real): int {
    if x >= 0.0 then x.Floor else -((-x).Floor)
  }

  // C's fmod and Python's %, for a positive divisor.
  function FMod(x: real, y: real): real
    requires y > 0.0
  {
    x - Scaled(y, Trunc(x / y) as real)
  }

  function PyMod(x: real, y: real): real
    requires y > 0.0
  {
    x - Scaled(y, (x / y).Floor as real)
  }

  function CppWrap(a: real): real {
    var r := FMod(a + PI, 2.0 * PI);
    (if r < 0.0 then r + 2.0 * PI else r) - PI
  }

  function PyWrap(a: real): real {
    PyMod(a + PI, 2.0 * PI) - PI
  }

  lemma WithinOne(f: real, q: real, y: real)
    requires f <= q < f + 1.0 && y > 0.0
    ensures Scaled(y, f) <= Scaled(y, q) < Scaled(y, f) + y
  {
    ScaledOrder(y, q, f);
    ScaledOrder(y, q, f + 1.0);
    assert Scaled(y, f + 1.0) == Scaled(y, f) + y;
  }

  lemma PyModInRange(x: real, y: real)
    requires y > 0.0
    ensures 0.0 <= PyMod(x, y) < y
  {
    WithinOne((x / y).Floor as real, x / y, y);
    ScaledQuotient(x, y);
  }

  // fmod gives the remainder with the sign of x; one more y makes it Python's.
  lemma FModIsPyMod(x: real, y: real)
    requires y > 0.0
    ensures PyMod(x, y) == if FMod(x, y) < 0.0 then FMod(x, y) + y else FMod(x, y)
  {
    var q := x / y;
    PyModInRange(x, y);
    if q < 0.0 && q.Floor as real != q {
      assert Trunc(q) == q.Floor + 1;
      assert Scaled(y, q.Floor as real + 1.0) == Scaled(y, q.Floor as real) + y;
    } else {
      assert Trunc(q) == q.Floor;
    }
  }

  // Whole turns from a to b.
  predicate Turns(a: real, b: real, n: int) {
    b == a - n as real * (2.0 * PI)
  }

  // The two wraps are equal, in [-PI, PI), and whole turns from the angle.
  lemma WrapsAgree(a: real)
    ensures CppWrap(a) == PyWrap(a)
    ensures -PI <= CppWrap(a) < PI
    ensures Turns(a, CppWrap(a), ((a + PI) / (2.0 * PI)).Floor)
  {
    FModIsPyMod(a + PI, 2.0 * PI);
    PyModInRange(a + PI, 2.0 * PI);
  }

  // --- The residual ---------------------------------------------------------------------------------

  // kinematics(q_s): crank angles, their Jacobian and the loop-closure margin.
  datatype Kin = Kin(f: V2, j: M2, margin: real)

  // The map, the measured crank angles, and hypot or numpy.linalg.norm.
  datatype Problem = Problem(kin: V2 -> Kin, qM: V2, length: V2 -> real)

  function Residual(p: Problem, q: V2): V2 {
    var d := Minus(p.kin(q).f, p.qM);
    V2(CppWrap(d.x), CppWrap(d.y))
  }

  function PyResidual(p: Problem, q: V2): V2 {
    var d := Minus(p.kin(q).f, p.qM);
    V2(PyWrap(d.x), PyWrap(d.y))
  }

  function Norm(p: Problem, q: V2): real {
    p.length(Residual(p, q))
  }

  function Jacobian(p: Problem, q: V2): M2 {
    p.kin(q).j
  }

  // A candidate either twin moves to from a residual of this norm: inside the workspace, and closer.
  predicate Better(p: Problem, c: V2, norm: real) {
    p.kin(c).margin >= 0.0 && Norm(p, c) < norm
  }

  const BACKTRACKS := 20
  const TOL := 0.000000000001
  const TOL_OK := 0.000001

  // step halved n times.
  function Halved(step: V2, n: nat): V2 {
    if n == 0 then step else Half(Halved(step, n - 1))
  }

  // The first halving at or after n whose candidate is better, if any of the 20 is.
  function Search(p: Problem, q: V2, step: V2, n: nat): (r: nat)
    requires n <= BACKTRACKS
    ensures n <= r <= BACKTRACKS
    ensures r < BACKTRACKS ==> Better(p, Plus(q, Halved(step, r)), Norm(p, q))
    ensures forall k :: n <= k < r ==> !Better(p, Plus(q, Halved(step, k)), Norm(p, q))
    decreases BACKTRACKS - n
  {
    if n == BACKTRACKS || Better(p, Plus(q, Halved(step, n)), Norm(p, q)) then n else Search(p, q, step, n + 1)
  }

  // --- C++ ---------------------------------------------------------------------------------------------

  // ok is serialAngles' return value, q what it leaves in q_s.
  datatype Found = Found(ok: bool, q: V2)

  function CppStep(p: Problem, q: V2): V2
    requires !Singular(Jacobian(p, q))
  {
    Opposite(Apply(Inverse(Jacobian(p, q)), Residual(p, q)))
  }

  // serialAngles with iters iterations left, at q.
  function CppSerialAngles(p: Problem, q: V2, iters: nat, tol: real, tolOk: real): Found
    decreases iters
  {
    if iters == 0 || Norm(p, q) < tol then Found(Norm(p, q) < tolOk, q)
    else if Singular(Jacobian(p, q)) then Found(false, q)
    else
      var n := Search(p, q, CppStep(p, q), 0);
      if n == BACKTRACKS then Found(Norm(p, q) < tolOk, q)
      else CppSerialAngles(p, Plus(q, Halved(CppStep(p, q), n)), iters - 1, tol, tolOk)
  }

  // The poses serialAngles goes through from q, its answer last.
  function CppTrace(p: Problem, q: V2, iters: nat, tol: real): (r: seq<V2>)
    ensures r != [] && r[0] == q && |r| <= iters + 1
    decreases iters
  {
    if iters == 0 || Norm(p, q) < tol || Singular(Jacobian(p, q)) then [q]
    else
      var n := Search(p, q, CppStep(p, q), 0);
      if n == BACKTRACKS then [q] else [q] + CppTrace(p, Plus(q, Halved(CppStep(p, q), n)), iters - 1, tol)
  }

  // to is the first halving of the Newton step at from that stays inside the workspace and strictly closes in.
  ghost predicate StepTaken(p: Problem, from: V2, to: V2) {
    !Singular(Jacobian(p, from)) &&
    exists n: nat :: n < BACKTRACKS && to == Plus(from, Halved(CppStep(p, from), n)) && FirstBetter(p, from, n)
  }

  ghost predicate FirstBetter(p: Problem, from: V2, n: nat)
    requires !Singular(Jacobian(p, from))
  {
    && Better(p, Plus(from, Halved(CppStep(p, from), n)), Norm(p, from))
    && forall k: nat :: k < n ==> !Better(p, Plus(from, Halved(CppStep(p, from), k)), Norm(p, from))
  }

  // The step from one iterate to the next: the first halving that is better, and so closer and inside the workspace.
  ghost predicate Descends(p: Problem, from: V2, to: V2) {
    StepTaken(p, from, to) && Better(p, to, Norm(p, from))
  }

  lemma TakesStep(p: Problem, q: V2, iters: nat, tol: real)
    ensures var t := CppTrace(p, q, iters, tol); |t| > 1 ==> Descends(p, q, t[1])
  {
    if |CppTrace(p, q, iters, tol)| > 1 {
      assert FirstBetter(p, q, Search(p, q, CppStep(p, q), 0));
    }
  }

  // What follows the first iterate is the trace from the second.
  lemma TraceShifts(p: Problem, q: V2, iters: nat, tol: real)
    ensures var t := CppTrace(p, q, iters, tol); |t| > 1 ==> iters > 0 && t[1..] == CppTrace(p, t[1], iters - 1, tol)
  {}

  // Along the iterates the residuals strictly fall and no accepted pose leaves the workspace: each pose follows from
  // the one before by the step taken there.
  lemma {:induction false} TraceDescends(p: Problem, q: V2, iters: nat, tol: real, i: nat)
    ensures var t := CppTrace(p, q, iters, tol); i + 1 < |t| ==> Descends(p, t[i], t[i + 1])
    decreases i
  {
    var t := CppTrace(p, q, iters, tol);
    if i == 0 {
      TakesStep(p, q, iters, tol);
    } else if i + 1 < |t| {
      TraceShifts(p, q, iters, tol);
      TraceDescends(p, t[1], iters - 1, tol, i - 1);
      assert t[1..][i - 1] == t[i] && t[1..][i] == t[i + 1];
    }
  }

  // The last of them is the answer.
  lemma {:induction false} TraceEnds(p: Problem, q: V2, iters: nat, tol: real, tolOk: real)
    ensures var t := CppTrace(p, q, iters, tol); t[|t| - 1] == CppSerialAngles(p, q, iters, tol, tolOk).q
    decreases iters
  {
    var t := CppTrace(p, q, iters, tol);
    if |t| > 1 {
      TraceShifts(p, q, iters, tol);
      TraceEnds(p, t[1], iters - 1, tol, tolOk);
      assert t[1..][|t| - 2] == t[|t| - 1];
    }
  }

  // --- The step ----------------------------------------------------------------------------------------------

  // The Newton step solves the linearised problem: the Jacobian takes it to minus the residual, the wrapped difference
  // between the crank angles at the pose and those measured.
  lemma StepSolves(p: Problem, q: V2)
    requires !Singular(Jacobian(p, q))
    ensures var d := Minus(p.kin(q).f, p.qM);
      Apply(p.kin(q).j, CppStep(p, q)) == V2(-CppWrap(d.x), -CppWrap(d.y))
  {
    var r := Residual(p, q);
    SolveIsInverse(Jacobian(p, q), r);
    OppositeApplies(Jacobian(p, q), Apply(Inverse(Jacobian(p, q)), r));
  }

  lemma OppositeApplies(m: M2, v: V2)
    ensures Apply(m, Opposite(v)) == Opposite(Apply(m, v))
  {}

  function Pow2(n: nat): (r: real)
    ensures r > 0.0
  {
    if n == 0 then 1.0 else 2.0 * Pow2(n - 1)
  }

  lemma {:induction false} HalvedIsQuotient(step: V2, n: nat)
    ensures Halved(step, n) == V2(step.x / Pow2(n), step.y / Pow2(n))
  {
    if n > 0 {
      HalvedIsQuotient(step, n - 1);
      HalfQuotient(step.x, Pow2(n - 1));
      HalfQuotient(step.y, Pow2(n - 1));
    }
  }

  lemma HalfQuotient(x: real, d: real)
    requires d > 0.0
    ensures 0.5 * (x / d) == x / (2.0 * d)
  {
    ScaledQuotient(x, d);
    ScaledQuotient(x, 2.0 * d);
    assert 2.0 * d * (0.5 * (x / d)) == d * (x / d);
    SameFactor(2.0 * d, 0.5 * (x / d), x / (2.0 * d));
  }

  lemma SameFactor(k: real, x: real, y: real)
    requires k > 0.0 && k * x == k * y
    ensures x == y
  {}

  // The inverse may stop at q, with iters iterations left: it is within tol, has no iteration left, cannot invert the
  // Jacobian, or none of the 20 halvings of the step gets closer inside the workspace.
  ghost predicate MayStop(p: Problem, q: V2, iters: int, tol: real) {
    Norm(p, q) < tol || iters == 0 || Singular(p.kin(q).j) ||
    forall n: nat :: n < 20 ==> !Better(p, Plus(q, Halved(CppStep(p, q), n)), Norm(p, q))
  }

  // It must go on.
  predicate GoesOn(p: Problem, q: V2, iters: int, tol: real) {
    Norm(p, q) >= tol && iters > 0 && !Singular(p.kin(q).j)
  }

  lemma StopsHere(p: Problem, q: V2, iters: nat, tol: real)
    ensures if |CppTrace(p, q, iters, tol)| == 1 then MayStop(p, q, iters, tol) else GoesOn(p, q, iters, tol)
  {}

  // It goes on until it may stop.
  lemma {:induction false} StopsOnlyThere(p: Problem, q: V2, iters: nat, tol: real, i: nat)
    ensures var t := CppTrace(p, q, iters, tol);
      && (i + 1 < |t| ==> GoesOn(p, t[i], iters - i, tol))
      && (i + 1 == |t| ==> MayStop(p, t[i], iters - i, tol))
    decreases i
  {
    var t := CppTrace(p, q, iters, tol);
    if i == 0 {
      StopsHere(p, q, iters, tol);
    } else if i < |t| {
      TraceShifts(p, q, iters, tol);
      StopsOnlyThere(p, t[1], iters - 1, tol, i - 1);
      assert t[1..][i - 1] == t[i];
    }
  }

  lemma {:induction false} FoundIsClose(p: Problem, q: V2, iters: nat, tol: real, tolOk: real)
    ensures CppSerialAngles(p, q, iters, tol, tolOk).ok ==> Norm(p, CppSerialAngles(p, q, iters, tol, tolOk).q) < tolOk
    decreases iters
  {
    if iters > 0 && Norm(p, q) >= tol && !Singular(Jacobian(p, q)) {
      var n := Search(p, q, CppStep(p, q), 0);
      if n < BACKTRACKS {
        FoundIsClose(p, Plus(q, Halved(CppStep(p, q), n)), iters - 1, tol, tolOk);
      }
    }
  }

  // trace is what of whole has been gone through, rest what is still to come from its last pose on.
  ghost predicate Continues(whole: seq<V2>, trace: seq<V2>, rest: seq<V2>) {
    trace != [] && rest != [] && rest[0] == trace[|trace| - 1] && whole == trace[..|trace| - 1] + rest
  }

  lemma ContinuesOn(whole: seq<V2>, trace: seq<V2>, rest: seq<V2>, later: seq<V2>)
    requires Continues(whole, trace, rest) && later != [] && rest == [rest[0]] + later
    ensures Continues(whole, trace + [later[0]], later)
  {
    assert (trace + [later[0]])[..|trace|] == trace[..|trace| - 1] + [rest[0]];
    assert trace[..|trace| - 1] + ([rest[0]] + later) == (trace[..|trace| - 1] + [rest[0]]) + later;
  }

  lemma ContinuesToEnd(whole: seq<V2>, trace: seq<V2>, rest: seq<V2>)
    requires Continues(whole, trace, rest) && |rest| == 1
    ensures whole == trace
  {
    assert trace == trace[..|trace| - 1] + rest;
  }

  // The backtracking loop: the first candidate that is better, or none after 20 halvings.
  method Backtrack(p: Problem, q: V2, first: V2, norm: real) returns (improved: bool, step: V2)
    requires norm == Norm(p, q)
    ensures step == Halved(first, Search(p, q, first, 0)) && (improved <==> Search(p, q, first, 0) < BACKTRACKS)
  {
    step, improved := first, false;
    var n := 0;
    while n < BACKTRACKS
      invariant n <= BACKTRACKS && step == Halved(first, n)
      invariant Search(p, q, first, 0) == Search(p, q, first, n)
    {
      var cand := Plus(q, step);
      if p.kin(cand).margin >= 0.0 && Norm(p, cand) < norm {
        return true, step;
      }
      step := Half(step);
      n := n + 1;
    }
  }

  // What a turn of the outer loop makes of a pose short of tol, with iters iterations left.
  datatype Turned = GaveUp | NoBetter | Moved(next: V2)

  method Turn(p: Problem, q: V2, r: V2, j: M2, norm: real, ghost iters: nat, tol: real, ghost tolOk: real)
    returns (turned: Turned)
    requires iters > 0 && r == Residual(p, q) && j == Jacobian(p, q) && norm == Norm(p, q) && norm >= tol
    ensures turned.GaveUp? ==> CppSerialAngles(p, q, iters, tol, tolOk) == Found(false, q)
    ensures turned.GaveUp? ==> CppTrace(p, q, iters, tol) == [q]
    ensures turned.NoBetter? ==>
      CppSerialAngles(p, q, iters, tol, tolOk) == Found(norm < tolOk, q) && CppTrace(p, q, iters, tol) == [q]
    ensures turned.Moved? ==>
      && CppSerialAngles(p, q, iters, tol, tolOk) == CppSerialAngles(p, turned.next, iters - 1, tol, tolOk)
      && CppTrace(p, q, iters, tol) == [q] + CppTrace(p, turned.next, iters - 1, tol)
  {
    if Singular(j) {
      return GaveUp;
    }
    var first := Opposite(Apply(Inverse(j), r));
    assert first == CppStep(p, q);
    var improved, step := Backtrack(p, q, first, norm);
    return if improved then Moved(Plus(q, step)) else NoBetter;
  }

  method SerialAngles(p: Problem, warm: V2, iters: nat, tol: real, tolOk: real)
    returns (ok: bool, q: V2, ghost trace: seq<V2>)
    ensures Found(ok, q) == CppSerialAngles(p, warm, iters, tol, tolOk)
    ensures trace == CppTrace(p, warm, iters, tol)
  {
    q, trace := warm, [warm];
    ghost var rest := CppTrace(p, warm, iters, tol);
    var r, j, norm := Residual(p, q), Jacobian(p, q), Norm(p, q);
    var it := 0;
    while it < iters && norm >= tol
      invariant it <= iters
      invariant r == Residual(p, q) && j == Jacobian(p, q) && norm == Norm(p, q)
      invariant CppSerialAngles(p, warm, iters, tol, tolOk) == CppSerialAngles(p, q, iters - it, tol, tolOk)
      invariant rest == CppTrace(p, q, iters - it, tol) && Continues(CppTrace(p, warm, iters, tol), trace, rest)
    {
      var turned := Turn(p, q, r, j, norm, iters - it, tol, tolOk);
      if !turned.Moved? {
        ContinuesToEnd(CppTrace(p, warm, iters, tol), trace, rest);
        return turned.NoBetter? && norm < tolOk, q, trace;
      }
      ghost var later := CppTrace(p, turned.next, iters - it - 1, tol);
      ContinuesOn(CppTrace(p, warm, iters, tol), trace, rest, later);
      trace, rest := trace + [turned.next], later;
      q := turned.next;
      r, j, norm := Residual(p, q), Jacobian(p, q), Norm(p, q);
      it := it + 1;
    }
    ContinuesToEnd(CppTrace(p, warm, iters, tol), trace, rest);
    ok := norm < tolOk;
  }

  // --- Python ----------------------------------------------------------------------------------------------

  datatype Solution = Solution(q: V2, norm: real)

  function PyStep(p: Problem, q: V2): V2
    requires !Singular(Jacobian(p, q))
  {
    Opposite(Solve(Jacobian(p, q), PyResidual(p, q)))
  }

  function PySerialAngles(p: Problem, q: V2, iters: nat, tol: real): Solution
    decreases iters
  {
    var norm := p.length(PyResidual(p, q));
    if iters == 0 || norm < tol || Singular(Jacobian(p, q)) then Solution(q, norm)
    else
      var n := Search(p, q, PyStep(p, q), 0);
      if n == BACKTRACKS then Solution(q, norm)
      else PySerialAngles(p, Plus(q, Halved(PyStep(p, q), n)), iters - 1, tol)
  }

  function PyTrace(p: Problem, q: V2, iters: nat, tol: real): (r: seq<V2>)
    ensures r != [] && r[0] == q
    decreases iters
  {
    if iters == 0 || p.length(PyResidual(p, q)) < tol || Singular(Jacobian(p, q)) then [q]
    else
      var n := Search(p, q, PyStep(p, q), 0);
      if n == BACKTRACKS then [q] else [q] + PyTrace(p, Plus(q, Halved(PyStep(p, q), n)), iters - 1, tol)
  }

  method BetterPy(p: Problem, c: V2, norm: real) returns (better: bool)
    ensures better == Better(p, c, norm)
  {
    ResidualsAgree(p, c);
    better := p.kin(c).margin >= 0.0 && p.length(PyResidual(p, c)) < norm;
  }

  // The inner for of serial_angles; its else is a step that was never better.
  method BacktrackPy(p: Problem, q: V2, first: V2, norm: real) returns (improved: bool, step: V2)
    requires norm == Norm(p, q)
    ensures step == Halved(first, Search(p, q, first, 0)) && (improved <==> Search(p, q, first, 0) < BACKTRACKS)
  {
    step, improved := first, false;
    for n := 0 to BACKTRACKS
      invariant step == Halved(first, n)
      invariant Search(p, q, first, 0) == Search(p, q, first, n)
    {
      var better := BetterPy(p, Plus(q, step), norm);
      if better {
        return true, step;
      }
      step := Half(step);
    }
  }

  // One turn of the outer loop, with iters iterations left: !more where the source breaks.
  method TurnPy(p: Problem, q: V2, r: V2, j: M2, norm: real, ghost iters: nat, tol: real) returns (more: bool, next: V2)
    requires iters > 0 && r == PyResidual(p, q) && j == Jacobian(p, q) && norm == p.length(r)
    ensures !more ==> PySerialAngles(p, q, iters, tol) == Solution(q, norm) && PyTrace(p, q, iters, tol) == [q]
    ensures more ==> PySerialAngles(p, q, iters, tol) == PySerialAngles(p, next, iters - 1, tol)
    ensures more ==> PyTrace(p, q, iters, tol) == [q] + PyTrace(p, next, iters - 1, tol)
  {
    more, next := false, q;
    if norm < tol || Singular(j) {
      return;
    }
    var first := Opposite(Solve(j, r));
    assert first == PyStep(p, q);
    ResidualsAgree(p, q);
    var improved, step := BacktrackPy(p, q, first, norm);
    if improved {
      more, next := true, Plus(q, step);
    }
  }

  method SerialAnglesPy(p: Problem, q0: V2, iters: nat, tol: real) returns (q: V2, norm: real, ghost trace: seq<V2>)
    ensures Solution(q, norm) == PySerialAngles(p, q0, iters, tol)
    ensures trace == PyTrace(p, q0, iters, tol)
  {
    q, trace := q0, [q0];
    ghost var rest := PyTrace(p, q0, iters, tol);
    var r, j := PyResidual(p, q), Jacobian(p, q);
    norm := p.length(r);
    for it := 0 to iters
      invariant r == PyResidual(p, q) && j == Jacobian(p, q) && norm == p.length(r)
      invariant PySerialAngles(p, q0, iters, tol) == PySerialAngles(p, q, iters - it, tol)
      invariant rest == PyTrace(p, q, iters - it, tol) && Continues(PyTrace(p, q0, iters, tol), trace, rest)
    {
      var more, next := TurnPy(p, q, r, j, norm, iters - it, tol);
      if !more {
        ContinuesToEnd(PyTrace(p, q0, iters, tol), trace, rest);
        return;
      }
      ghost var later := PyTrace(p, next, iters - it - 1, tol);
      ContinuesOn(PyTrace(p, q0, iters, tol), trace, rest, later);
      trace, rest := trace + [next], later;
      q := next;
      r, j := PyResidual(p, q), Jacobian(p, q);
      norm := p.length(r);
    }
    ContinuesToEnd(PyTrace(p, q0, iters, tol), trace, rest);
  }

  // --- The twins -----------------------------------------------------------------------------------------------

  lemma ResidualsAgree(p: Problem, q: V2)
    ensures PyResidual(p, q) == Residual(p, q)
  {
    var d := Minus(p.kin(q).f, p.qM);
    WrapsAgree(d.x);
    WrapsAgree(d.y);
  }

  lemma StepsAgree(p: Problem, q: V2)
    requires !Singular(Jacobian(p, q))
    ensures PyStep(p, q) == CppStep(p, q)
  {
    ResidualsAgree(p, q);
    SolveIsInverse(Jacobian(p, q), Residual(p, q));
  }

  // Short of tol, at a Jacobian that cannot be inverted.
  predicate EndsSingular(p: Problem, end: V2, tol: real) {
    Norm(p, end) >= tol && Singular(Jacobian(p, end))
  }

  // From the same start both twins go through the same poses and end at one, whatever becomes of them.
  lemma {:induction false} TwinsAgree(p: Problem, q: V2, iters: nat, tol: real, tolOk: real)
    ensures CppTrace(p, q, iters, tol) == PyTrace(p, q, iters, tol)
    ensures CppSerialAngles(p, q, iters, tol, tolOk).q == PySerialAngles(p, q, iters, tol).q
    ensures PySerialAngles(p, q, iters, tol).norm == Norm(p, PySerialAngles(p, q, iters, tol).q)
    decreases iters
  {
    ResidualsAgree(p, q);
    if iters > 0 && Norm(p, q) >= tol && !Singular(Jacobian(p, q)) {
      StepsAgree(p, q);
      var n := Search(p, q, CppStep(p, q), 0);
      if n < BACKTRACKS {
        TwinsAgree(p, Plus(q, Halved(CppStep(p, q), n)), iters - 1, tol, tolOk);
      }
    }
  }

  // The C++ twin reports success exactly when the Python one's residual is below tol_ok, but for a loop that has an
  // iteration left at a singular Jacobian: there it gives up.
  lemma {:induction false} VerdictsAgreeIff(p: Problem, q: V2, iters: nat, tol: real, tolOk: real)
    ensures CppSerialAngles(p, q, iters, tol, tolOk).ok <==>
            && PySerialAngles(p, q, iters, tol).norm < tolOk
            && !(|PyTrace(p, q, iters, tol)| <= iters && EndsSingular(p, PySerialAngles(p, q, iters, tol).q, tol))
    decreases iters
  {
    ResidualsAgree(p, q);
    if iters > 0 && Norm(p, q) >= tol && !Singular(Jacobian(p, q)) {
      StepsAgree(p, q);
      var n := Search(p, q, CppStep(p, q), 0);
      if n < BACKTRACKS {
        VerdictsAgreeIff(p, Plus(q, Halved(CppStep(p, q), n)), iters - 1, tol, tolOk);
      }
    }
  }

  // A warm start that already solves the problem is the answer.
  lemma ExactStart(p: Problem, q: V2, iters: nat)
    requires p.kin(q).f == p.qM && p.length(ORIGIN) == 0.0
    ensures CppSerialAngles(p, q, iters, TOL, TOL_OK) == Found(true, q)
  {
    WrapZero();
    assert Residual(p, q) == ORIGIN;
  }

  lemma WrapZero()
    ensures CppWrap(0.0) == 0.0
  {
    assert PI / (2.0 * PI) == 0.5;
  }
}
