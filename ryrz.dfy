/** The RyRz variational forms for H2 on four qubits: two X gates prepare the
    initial state, then `depth` repetitions of three layers (a Ry on every
    qubit, an Rz on every qubit, an entangling CX block), then one last Ry and
    Rz layer. The full and the linear form differ only in the CX block. */
module RyRz {
  import opened Outcomes

  datatype Gate = X(q: nat) | Ry(p: real, q: nat) | Rz(p: real, q: nat) | CX(a: nat, b: nat)

  datatype Topology = Full | Linear

  /** A circuit with its quantum and classical register sizes. */
  datatype Circuit = Circuit(qubits: nat, clbits: nat, gates: seq<Gate>)

  const Qubits: nat := 4

  /** `range(depth)` runs zero times for a negative depth. */
  function Repetitions(depth: int): nat
  {
    if depth < 0 then 0 else depth
  }

  /** Number of parameter entries the builders read. */
  function ParamCount(depth: int): nat
  {
    8 + 24 * Repetitions(depth)
  }

  /** The CX block closing each layer. */
  function Entangler(t: Topology): seq<Gate>
  {
    match t
    case Full => [CX(0, 1), CX(0, 2), CX(0, 3), CX(1, 2), CX(1, 3), CX(2, 3)]
    case Linear => [CX(0, 1), CX(1, 2), CX(2, 3)]
  }

  /** Ry gates on qubits 0 .. n-1, with angles params[start ..start+n]. */
  function RyRow(params: seq<real>, start: nat, n: nat): seq<Gate>
    requires start + n <= |params|
  {
    if n == 0 then [] else RyRow(params, start, n - 1) + [Ry(params[start + n - 1], n - 1)]
  }

  /** Rz gates on qubits 0 .. n-1, with angles params[start ..start+n]. */
  function RzRow(params: seq<real>, start: nat, n: nat): seq<Gate>
    requires start + n <= |params|
  {
    if n == 0 then [] else RzRow(params, start, n - 1) + [Rz(params[start + n - 1], n - 1)]
  }

  /** One Ry layer and one Rz layer, reading params[start .. start+8]. */
  function Rotations(params: seq<real>, start: nat): seq<Gate>
    requires start + 8 <= |params|
  {
    RyRow(params, start, Qubits) + RzRow(params, start + Qubits, Qubits)
  }

  /** Everything emitted once n layers are done: the two X gates, then the layers. */
  function Emitted(t: Topology, params: seq<real>, n: nat): seq<Gate>
    requires 8 * n <= |params|
  {
    if n == 0 then [X(0), X(1)] else Emitted(t, params, n - 1) + Rotations(params, 8 * (n - 1)) + Entangler(t)
  }

  lemma EmittedNext(t: Topology, params: seq<real>, m: nat)
    requires 8 * (m + 1) <= |params|
    ensures Emitted(t, params, m + 1) == Emitted(t, params, m) + Rotations(params, 8 * m) + Entangler(t)
  {
  }

  /** One pass of the builders' inner loop: appending a layer's rotations
      and then the CX block to what m layers emitted gives m + 1 layers. */
  lemma LayerStep(t: Topology, params: seq<real>, qc: seq<Gate>, rotated: seq<Gate>, m: nat, counter: nat)
    requires counter == 8 * m && counter + 8 <= |params|
    requires qc == Emitted(t, params, m) && rotated == qc + Rotations(params, counter)
    ensures rotated + Entangler(t) == Emitted(t, params, m + 1)
  {
    EmittedNext(t, params, m);
  }

  /** The gate sequence both builders emit, when params is long enough. */
  function Template(t: Topology, params: seq<real>, depth: int): seq<Gate>
    requires ParamCount(depth) <= |params|
  {
    var n := 3 * Repetitions(depth);
    Emitted(t, params, n) + Rotations(params, 8 * n)
  }

  /** The two `for j in range(4)` loops the builders run for every layer and
      once more at the end: a Ry on each qubit, then an Rz on each qubit,
      reading params[counter], params[counter + 1], ... */
  method AppendRotations(qc: seq<Gate>, params: seq<real>, counter: nat) returns (r: Result<seq<Gate>>)
    requires counter <= |params|
    ensures counter + 8 <= |params| ==> r == Ok(qc + Rotations(params, counter))
    ensures |params| < counter + 8 ==> r == Err(IndexError(|params|))
  {
    var gates := qc;
    var next := counter;
    for j := 0 to 4
      invariant next == counter + j <= |params|
      invariant gates == qc + RyRow(params, counter, j)
    {
      if next == |params| {
        return Err(IndexError(next));
      }
      gates := gates + [Ry(params[next], j)];
      next := next + 1;
    }
    var withRy := gates;
    for j := 0 to 4
      invariant next == counter + 4 + j <= |params|
      invariant gates == withRy + RzRow(params, counter + 4, j)
    {
      if next == |params| {
        return Err(IndexError(next));
      }
      gates := gates + [Rz(params[next], j)];
      next := next + 1;
    }
    assert gates == qc + (RyRow(params, counter, 4) + RzRow(params, counter + 4, 4));
    r := Ok(gates);
  }

  /** One pass of `for d in range(depth)`: three layers, each the rotations
      read from params[counter ..] followed by the CX block of the topology.
      `qc` holds what the first m layers emitted. */
  method AppendRepetition(t: Topology, qc: seq<Gate>, params: seq<real>, counter: nat, ghost m: nat)
    returns (r: Result<seq<Gate>>)
    requires counter == 8 * m <= |params| && qc == Emitted(t, params, m)
    ensures counter + 24 <= |params| ==> r == Ok(Emitted(t, params, m + 3))
    ensures |params| < counter + 24 ==> r == Err(IndexError(|params|))
  {
    var gates := qc;
    var next := counter;
    for k := 0 to 3
      invariant next == counter + 8 * k <= |params|
      invariant gates == Emitted(t, params, m + k)
    {
      var layer := AppendRotations(gates, params, next);
      if layer.Err? {
        return Err(layer.error);
      }
      LayerStep(t, params, gates, layer.value, m + k, next);
      gates := layer.value + Entangler(t);
      next := next + 8;
    }
    r := Ok(gates);
  }

  /** create_VQE_circuit_RyRz_full_entangle_H2 (t == Full) and
      create_VQE_circuit_RyRz_linear_entangle_H2 (t == Linear): a running
      counter walks the parameter vector while gates are appended; the first
      read past the end raises IndexError at that index. */
  method BuildRyRz(t: Topology, params: seq<real>, depth: int) returns (r: Result<Circuit>)
    ensures ParamCount(depth) <= |params| ==> r == Ok(Circuit(Qubits, Qubits, Template(t, params, depth)))
    ensures |params| < ParamCount(depth) ==> r == Err(IndexError(|params|))
  {
    var qc := [X(0), X(1)];
    var counter := 0;
    for d := 0 to Repetitions(depth)
      invariant counter == 24 * d <= |params|
      invariant qc == Emitted(t, params, 3 * d)
    {
      var repetition := AppendRepetition(t, qc, params, counter, 3 * d);
      if repetition.Err? {
        assert |params| < ParamCount(depth);
        return Err(repetition.error);
      }
      qc := repetition.value;
      counter := counter + 24;
    }
    var last := AppendRotations(qc, params, counter);
    if last.Err? {
      assert |params| < counter + 8 == ParamCount(depth);
      return Err(last.error);
    }
    assert counter == 8 * (3 * Repetitions(depth));
    r := Ok(Circuit(Qubits, Qubits, last.value));
  }

  // ---------------------------------------------------------------------
  // Views of a gate sequence used to state what the template promises.

  /** The angle a gate reads from the parameter vector, if any. */
  function AngleOf(g: Gate): seq<real>
  {
    match g
    case Ry(p, _) => [p]
    case Rz(p, _) => [p]
    case _ => []
  }

  /** The rotation angles, in emission order. */
  function Angles(g: seq<Gate>): seq<real>
  {
    if g == [] then [] else AngleOf(g[0]) + Angles(g[1..])
  }

  function Kept(g: Gate): seq<Gate>
  {
    if g.CX? then [] else [g]
  }

  function CXOf(g: Gate): nat
  {
    if g.CX? then 1 else 0
  }

  /** The sequence with every CX gate removed. */
  function WithoutCX(g: seq<Gate>): seq<Gate>
  {
    if g == [] then [] else Kept(g[0]) + WithoutCX(g[1..])
  }

  /** Number of CX gates. */
  function CXCount(g: seq<Gate>): nat
  {
    if g == [] then 0 else CXOf(g[0]) + CXCount(g[1..])
  }

  /** The gate acts on qubits of a four-qubit register, and a CX on two distinct ones. */
  predicate GateFits(g: Gate)
  {
    match g
    case X(q) => q < Qubits
    case Ry(_, q) => q < Qubits
    case Rz(_, q) => q < Qubits
    case CX(a, b) => a < Qubits && b < Qubits && a != b
  }

  /** Every gate fits the four-qubit register. */
  predicate FitsRegister(g: seq<Gate>)
  {
    forall i | 0 <= i < |g| :: GateFits(g[i])
  }

  lemma {:induction false} AnglesConcat(a: seq<Gate>, b: seq<Gate>)
    ensures Angles(a + b) == Angles(a) + Angles(b)
  {
    if a == [] {
      assert a + b == b;
    } else {
      assert (a + b)[0] == a[0] && (a + b)[1..] == a[1..] + b;
      calc {
        Angles(a + b);
        AngleOf(a[0]) + Angles(a[1..] + b);
        { AnglesConcat(a[1..], b); }
        AngleOf(a[0]) + (Angles(a[1..]) + Angles(b));
        Angles(a) + Angles(b);
      }
    }
  }

  lemma {:induction false} WithoutCXConcat(a: seq<Gate>, b: seq<Gate>)
    ensures WithoutCX(a + b) == WithoutCX(a) + WithoutCX(b)
  {
    if a == [] {
      assert a + b == b;
    } else {
      assert (a + b)[0] == a[0] && (a + b)[1..] == a[1..] + b;
      WithoutCXConcat(a[1..], b);
    }
  }

  lemma {:induction false} CXCountConcat(a: seq<Gate>, b: seq<Gate>)
    ensures CXCount(a + b) == CXCount(a) + CXCount(b)
  {
    if a == [] {
      assert a + b == b;
    } else {
      assert (a + b)[0] == a[0] && (a + b)[1..] == a[1..] + b;
      CXCountConcat(a[1..], b);
    }
  }

  lemma {:induction false} AllCXViews(g: seq<Gate>)
    requires forall i | 0 <= i < |g| :: g[i].CX?
    ensures Angles(g) == [] && WithoutCX(g) == [] && CXCount(g) == |g|
  {
    if g != [] {
      AllCXViews(g[1..]);
    }
  }

  lemma {:induction false} RowLength(params: seq<real>, start: nat, n: nat)
    requires start + n <= |params|
    ensures |RyRow(params, start, n)| == n && |RzRow(params, start, n)| == n
  {
    if n > 0 {
      RowLength(params, start, n - 1);
    }
  }

  lemma {:induction false} RyRowAngles(params: seq<real>, start: nat, n: nat)
    requires start + n <= |params|
    ensures Angles(RyRow(params, start, n)) == params[start..start + n]
  {
    if n > 0 {
      var v := params[start + n - 1];
      calc {
        Angles(RyRow(params, start, n));
        Angles(RyRow(params, start, n - 1) + [Ry(v, n - 1)]);
        { AnglesConcat(RyRow(params, start, n - 1), [Ry(v, n - 1)]); }
        Angles(RyRow(params, start, n - 1)) + Angles([Ry(v, n - 1)]);
        { RyRowAngles(params, start, n - 1); }
        params[start..start + n - 1] + [v];
        { SliceExtend(params, start, start + n - 1); }
        params[start..start + n];
      }
    }
  }

  lemma {:induction false} RzRowAngles(params: seq<real>, start: nat, n: nat)
    requires start + n <= |params|
    ensures Angles(RzRow(params, start, n)) == params[start..start + n]
  {
    if n > 0 {
      var v := params[start + n - 1];
      calc {
        Angles(RzRow(params, start, n));
        Angles(RzRow(params, start, n - 1) + [Rz(v, n - 1)]);
        { AnglesConcat(RzRow(params, start, n - 1), [Rz(v, n - 1)]); }
        Angles(RzRow(params, start, n - 1)) + Angles([Rz(v, n - 1)]);
        { RzRowAngles(params, start, n - 1); }
        params[start..start + n - 1] + [v];
        { SliceExtend(params, start, start + n - 1); }
        params[start..start + n];
      }
    }
  }

  lemma {:induction false} RowNoCX(params: seq<real>, start: nat, n: nat)
    requires start + n <= |params|
    ensures WithoutCX(RyRow(params, start, n)) == RyRow(params, start, n)
    ensures WithoutCX(RzRow(params, start, n)) == RzRow(params, start, n)
    ensures CXCount(RyRow(params, start, n)) == 0 && CXCount(RzRow(params, start, n)) == 0
  {
    if n > 0 {
      var v := params[start + n - 1];
      RowNoCX(params, start, n - 1);
      WithoutCXConcat(RyRow(params, start, n - 1), [Ry(v, n - 1)]);
      WithoutCXConcat(RzRow(params, start, n - 1), [Rz(v, n - 1)]);
      CXCountConcat(RyRow(params, start, n - 1), [Ry(v, n - 1)]);
      CXCountConcat(RzRow(params, start, n - 1), [Rz(v, n - 1)]);
    }
  }

  lemma RotationAngles(params: seq<real>, start: nat)
    requires start + 8 <= |params|
    ensures Angles(Rotations(params, start)) == params[start..start + 8]
  {
    RyRowAngles(params, start, 4);
    RzRowAngles(params, start + 4, 4);
    AnglesConcat(RyRow(params, start, 4), RzRow(params, start + 4, 4));
    assert params[start..start + 8] == params[start..start + 4] + params[start + 4..start + 8];
  }

  lemma RotationsNoCX(params: seq<real>, start: nat)
    requires start + 8 <= |params|
    ensures WithoutCX(Rotations(params, start)) == Rotations(params, start)
    ensures CXCount(Rotations(params, start)) == 0
  {
    RowNoCX(params, start, 4);
    RowNoCX(params, start + 4, 4);
    WithoutCXConcat(RyRow(params, start, 4), RzRow(params, start + 4, 4));
    CXCountConcat(RyRow(params, start, 4), RzRow(params, start + 4, 4));
  }

  lemma EntanglerViews(t: Topology)
    ensures Angles(Entangler(t)) == []
    ensures WithoutCX(Entangler(t)) == []
    ensures CXCount(Entangler(t)) == |Entangler(t)|
  {
    AllCXViews(Entangler(t));
  }

  lemma XPrefixViews()
    ensures Angles([X(0), X(1)]) == [] && WithoutCX([X(0), X(1)]) == [X(0), X(1)]
    ensures CXCount([X(0), X(1)]) == 0
  {
    assert [X(0), X(1)][1..] == [X(1)];
    assert [X(1)][1..] == [];
  }

  lemma EmittedAnglesStep(t: Topology, params: seq<real>, n: nat)
    requires 0 < n && 8 * n <= |params|
    ensures Angles(Emitted(t, params, n)) == Angles(Emitted(t, params, n - 1)) + params[8 * (n - 1)..8 * (n - 1) + 8]
  {
    var prev := Emitted(t, params, n - 1);
    var rot := Rotations(params, 8 * (n - 1));
    calc {
      Angles(Emitted(t, params, n));
      Angles((prev + rot) + Entangler(t));
      { AnglesConcat(prev + rot, Entangler(t)); EntanglerViews(t); }
      Angles(prev + rot) + [];
      { AnglesConcat(prev, rot); }
      Angles(prev) + Angles(rot) + [];
      { RotationAngles(params, 8 * (n - 1)); }
      Angles(prev) + params[8 * (n - 1)..8 * (n - 1) + 8] + [];
    }
  }

  lemma {:induction false} EmittedAngles(t: Topology, params: seq<real>, n: nat)
    requires 8 * n <= |params|
    ensures Angles(Emitted(t, params, n)) == params[..8 * n]
  {
    if n == 0 {
      XPrefixViews();
    } else {
      var s := 8 * (n - 1);
      calc {
        Angles(Emitted(t, params, n));
        { EmittedAnglesStep(t, params, n); }
        Angles(Emitted(t, params, n - 1)) + params[s..s + 8];
        { EmittedAngles(t, params, n - 1); }
        params[..s] + params[s..s + 8];
        { PrefixSplit(params, s, s + 8); }
        params[..s + 8];
      }
    }
  }

  lemma EmittedWithoutCXStep(t: Topology, params: seq<real>, n: nat)
    requires 0 < n && 8 * n <= |params|
    ensures WithoutCX(Emitted(t, params, n)) == WithoutCX(Emitted(t, params, n - 1)) + Rotations(params, 8 * (n - 1))
  {
    var prev := Emitted(t, params, n - 1);
    var rot := Rotations(params, 8 * (n - 1));
    assert Emitted(t, params, n) == (prev + rot) + Entangler(t);
    WithoutCXConcat(prev + rot, Entangler(t));
    EntanglerViews(t);
    WithoutCXConcat(prev, rot);
    RotationsNoCX(params, 8 * (n - 1));
  }

  /** Removing CX gates from what n layers emit leaves the same sequence
      whichever topology emitted it. */
  lemma {:induction false} EmittedWithoutCX(t: Topology, params: seq<real>, n: nat)
    requires 8 * n <= |params|
    ensures WithoutCX(Emitted(t, params, n)) == WithoutCX(Emitted(Full, params, n))
  {
    if n > 0 {
      var m := n - 1;
      calc {
        WithoutCX(Emitted(t, params, n));
        { EmittedWithoutCXStep(t, params, n); }
        WithoutCX(Emitted(t, params, m)) + Rotations(params, 8 * m);
        { EmittedWithoutCX(t, params, m); }
        WithoutCX(Emitted(Full, params, m)) + Rotations(params, 8 * m);
        { EmittedWithoutCXStep(Full, params, n); }
        WithoutCX(Emitted(Full, params, n));
      }
    }
  }

  /** CX gates in one entangling block: 6 for the full form, 3 for the linear one. */
  function BlockCX(t: Topology): nat
  {
    match t
    case Full => 6
    case Linear => 3
  }

  lemma EmittedCXStep(t: Topology, params: seq<real>, n: nat)
    requires 0 < n && 8 * n <= |params|
    ensures CXCount(Emitted(t, params, n)) == CXCount(Emitted(t, params, n - 1)) + BlockCX(t)
  {
    var prev := Emitted(t, params, n - 1);
    var rot := Rotations(params, 8 * (n - 1));
    assert Emitted(t, params, n) == prev + rot + Entangler(t);
    CXCountConcat(prev + rot, Entangler(t));
    CXCountConcat(prev, rot);
    RotationsNoCX(params, 8 * (n - 1));
    EntanglerViews(t);
  }

  lemma {:induction false} EmittedCXCount(t: Topology, params: seq<real>, n: nat)
    requires 8 * n <= |params|
    ensures t == Full ==> CXCount(Emitted(t, params, n)) == 6 * n
    ensures t == Linear ==> CXCount(Emitted(t, params, n)) == 3 * n
  {
    if n == 0 {
      XPrefixViews();
      assert Emitted(t, params, 0) == [X(0), X(1)];
    } else {
      EmittedCXCount(t, params, n - 1);
      EmittedCXStep(t, params, n);
      assert t == Full ==> BlockCX(t) == 6;
      assert t == Linear ==> BlockCX(t) == 3;
    }
  }

  /** Both builders read exactly the first ParamCount(depth) entries, each
      once and in order; later entries are ignored. */
  lemma TemplateReadsPrefix(t: Topology, params: seq<real>, depth: int)
    requires ParamCount(depth) <= |params|
    ensures Angles(Template(t, params, depth)) == params[..ParamCount(depth)]
    ensures |Angles(Template(t, params, depth))| == 8 + 3 * 8 * Repetitions(depth)
  {
    var n := 3 * Repetitions(depth);
    var rot := Rotations(params, 8 * n);
    calc {
      Angles(Template(t, params, depth));
      Angles(Emitted(t, params, n) + rot);
      { AnglesConcat(Emitted(t, params, n), rot); }
      Angles(Emitted(t, params, n)) + Angles(rot);
      { EmittedAngles(t, params, n); RotationAngles(params, 8 * n); }
      params[..8 * n] + params[8 * n..8 * n + 8];
      { PrefixSplit(params, 8 * n, 8 * n + 8); }
      params[..8 * n + 8];
    }
  }

  lemma TemplateWithoutCX(t: Topology, params: seq<real>, depth: int)
    requires ParamCount(depth) <= |params|
    ensures WithoutCX(Template(t, params, depth)) == WithoutCX(Template(Full, params, depth))
  {
    var n := 3 * Repetitions(depth);
    var rot := Rotations(params, 8 * n);
    calc {
      WithoutCX(Template(t, params, depth));
      WithoutCX(Emitted(t, params, n) + rot);
      { WithoutCXConcat(Emitted(t, params, n), rot); }
      WithoutCX(Emitted(t, params, n)) + WithoutCX(rot);
      { EmittedWithoutCX(t, params, n); }
      WithoutCX(Emitted(Full, params, n)) + WithoutCX(rot);
      { WithoutCXConcat(Emitted(Full, params, n), rot); }
      WithoutCX(Template(Full, params, depth));
    }
  }

  lemma TemplateCXCount(t: Topology, params: seq<real>, depth: int)
    requires ParamCount(depth) <= |params|
    ensures t == Full ==> CXCount(Template(t, params, depth)) == 18 * Repetitions(depth)
    ensures t == Linear ==> CXCount(Template(t, params, depth)) == 9 * Repetitions(depth)
  {
    var n := 3 * Repetitions(depth);
    var rot := Rotations(params, 8 * n);
    CXCountConcat(Emitted(t, params, n), rot);
    EmittedCXCount(t, params, n);
    RotationsNoCX(params, 8 * n);
  }

  /** Dropping the CX gates makes the two forms identical; the full form has
      18 CX gates per repetition, the linear form 9. */
  lemma TemplatesDifferOnlyInCX(params: seq<real>, depth: int)
    requires ParamCount(depth) <= |params|
    ensures WithoutCX(Template(Full, params, depth)) == WithoutCX(Template(Linear, params, depth))
    ensures CXCount(Template(Full, params, depth)) == 18 * Repetitions(depth)
    ensures CXCount(Template(Linear, params, depth)) == 9 * Repetitions(depth)
  {
    TemplateWithoutCX(Linear, params, depth);
    TemplateCXCount(Full, params, depth);
    TemplateCXCount(Linear, params, depth);
  }

  /** One layer: Ry on qubits 0..3 in order, then Rz on qubits 0..3. */
  lemma RotationsSpelledOut(params: seq<real>, s: nat)
    requires s + 8 <= |params|
    ensures Rotations(params, s) ==
      [Ry(params[s], 0), Ry(params[s + 1], 1), Ry(params[s + 2], 2), Ry(params[s + 3], 3),
       Rz(params[s + 4], 0), Rz(params[s + 5], 1), Rz(params[s + 6], 2), Rz(params[s + 7], 3)]
  {
    assert RyRow(params, s, 4) == [Ry(params[s], 0), Ry(params[s + 1], 1), Ry(params[s + 2], 2), Ry(params[s + 3], 3)] by {
      assert RyRow(params, s, 1) == [Ry(params[s], 0)];
      assert RyRow(params, s, 2) == [Ry(params[s], 0), Ry(params[s + 1], 1)];
      assert RyRow(params, s, 3) == [Ry(params[s], 0), Ry(params[s + 1], 1), Ry(params[s + 2], 2)];
    }
    assert RzRow(params, s + 4, 4) == [Rz(params[s + 4], 0), Rz(params[s + 5], 1), Rz(params[s + 6], 2), Rz(params[s + 7], 3)] by {
      assert RzRow(params, s + 4, 1) == [Rz(params[s + 4], 0)];
      assert RzRow(params, s + 4, 2) == [Rz(params[s + 4], 0), Rz(params[s + 5], 1)];
      assert RzRow(params, s + 4, 3) == [Rz(params[s + 4], 0), Rz(params[s + 5], 1), Rz(params[s + 6], 2)];
    }
  }

  /** Width of one layer: eight rotations and the CX block. */
  function LayerWidth(t: Topology): nat
  {
    8 + |Entangler(t)|
  }

  /** Position in the emitted sequence where layer i begins (layer n, when
      n layers are done, is where the final rotations begin). */
  function LayerStart(t: Topology, i: nat): nat
  {
    if i == 0 then 2 else LayerStart(t, i - 1) + LayerWidth(t)
  }

  lemma {:induction false} LayerStartClosedForm(t: Topology, i: nat)
    ensures LayerStart(t, i) == 2 + i * LayerWidth(t)
  {
    if i > 0 {
      LayerStartClosedForm(t, i - 1);
      assert (i - 1) * LayerWidth(t) + LayerWidth(t) == i * LayerWidth(t);
    }
  }

  lemma {:induction false} EmittedLength(t: Topology, params: seq<real>, n: nat)
    requires 8 * n <= |params|
    ensures |Emitted(t, params, n)| == LayerStart(t, n)
  {
    if n > 0 {
      var m := n - 1;
      calc {
        |Emitted(t, params, n)|;
        { EmittedNext(t, params, m); }
        |Emitted(t, params, m) + Rotations(params, 8 * m) + Entangler(t)|;
        { EmittedLength(t, params, m); RotationsLength(params, 8 * m); }
        LayerStart(t, m) + LayerWidth(t);
      }
    }
  }

  lemma {:induction false} LayerStartMono(t: Topology, i: nat, n: nat)
    requires i <= n
    ensures LayerStart(t, i) <= LayerStart(t, n)
  {
    if i < n {
      LayerStartMono(t, i, n - 1);
    }
  }

  lemma LastLayer(t: Topology, params: seq<real>, n: nat)
    requires 0 < n && 8 * n <= |params|
    ensures LayerStart(t, n - 1) <= LayerStart(t, n) == |Emitted(t, params, n)|
    ensures Emitted(t, params, n)[LayerStart(t, n - 1)..LayerStart(t, n)] == Rotations(params, 8 * (n - 1)) + Entangler(t)
  {
    EmittedLength(t, params, n);
    var prev := Emitted(t, params, n - 1);
    var block := Rotations(params, 8 * (n - 1)) + Entangler(t);
    assert Emitted(t, params, n) == prev + block;
    EmittedLength(t, params, n - 1);
    RotationsLength(params, 8 * (n - 1));
    assert LayerStart(t, n) == |prev| + |block|;
    SliceOfRight(prev, block);
  }

  lemma EarlierLayer(t: Topology, params: seq<real>, n: nat, lo: nat, hi: nat)
    requires 0 < n && 8 * n <= |params| && lo <= hi <= |Emitted(t, params, n - 1)|
    ensures |Emitted(t, params, n - 1)| <= |Emitted(t, params, n)|
    ensures Emitted(t, params, n)[lo..hi] == Emitted(t, params, n - 1)[lo..hi]
  {
    var prev := Emitted(t, params, n - 1);
    var block := Rotations(params, 8 * (n - 1)) + Entangler(t);
    assert Emitted(t, params, n) == prev + block;
    SliceOfLeft(prev, block, lo, hi);
  }

  lemma {:induction false} LayerAt(t: Topology, params: seq<real>, n: nat, i: nat)
    requires 8 * n <= |params| && i < n
    ensures LayerStart(t, i + 1) <= LayerStart(t, n) == |Emitted(t, params, n)|
    ensures Emitted(t, params, n)[LayerStart(t, i)..LayerStart(t, i + 1)] == Rotations(params, 8 * i) + Entangler(t)
  {
    EmittedLength(t, params, n);
    LayerStartMono(t, i + 1, n);
    if i == n - 1 {
      LastLayer(t, params, n);
    } else {
      LayerAt(t, params, n - 1, i);
      EarlierLayer(t, params, n, LayerStart(t, i), LayerStart(t, i + 1));
    }
  }

  /** The ends of the gate list, for every depth (none, one or more
      repetitions): X(0) and X(1) first, the final 8 rotations last. */
  lemma TemplateEnds(t: Topology, params: seq<real>, depth: int)
    requires ParamCount(depth) <= |params|
    ensures var g := Template(t, params, depth);
      && |g| == LayerStart(t, 3 * Repetitions(depth)) + 8
      && g[..2] == [X(0), X(1)]
      && g[|g| - 8..] == Rotations(params, 24 * Repetitions(depth))
  {
    var n := 3 * Repetitions(depth);
    var body := Emitted(t, params, n);
    var rot := Rotations(params, 8 * n);
    EmittedLength(t, params, n);
    EmittedStartsWithX(t, params, n);
    RotationsLength(params, 8 * n);
    assert Template(t, params, depth) == body + rot;
    assert (body + rot)[..2] == body[..2];
    SliceOfRight(body, rot);
  }

  /** Shape of the emitted sequence: X on qubits 0 and 1 first, then layer i
      (for each of the 3·depth layers) between LayerStart(t, i) and
      LayerStart(t, i + 1), then one last Ry and Rz layer with no CX after it. */
  lemma TemplateShape(t: Topology, params: seq<real>, depth: int, i: nat)
    requires ParamCount(depth) <= |params| && i < 3 * Repetitions(depth)
    ensures var g := Template(t, params, depth);
      && |g| == LayerStart(t, 3 * Repetitions(depth)) + 8
      && g[..2] == [X(0), X(1)]
      && LayerStart(t, i + 1) <= |g| - 8
      && g[LayerStart(t, i)..LayerStart(t, i + 1)] == Rotations(params, 8 * i) + Entangler(t)
      && g[|g| - 8..] == Rotations(params, 24 * Repetitions(depth))
  {
    var n := 3 * Repetitions(depth);
    var body := Emitted(t, params, n);
    var rot := Rotations(params, 8 * n);
    TemplateEnds(t, params, depth);
    LayerAt(t, params, n, i);
    assert Template(t, params, depth) == body + rot;
    SliceOfLeft(body, rot, LayerStart(t, i), LayerStart(t, i + 1));
  }

  lemma {:induction false} EmittedStartsWithX(t: Topology, params: seq<real>, n: nat)
    requires 8 * n <= |params|
    ensures |Emitted(t, params, n)| >= 2 && Emitted(t, params, n)[..2] == [X(0), X(1)]
  {
    if n > 0 {
      EmittedStartsWithX(t, params, n - 1);
    }
  }

  lemma FitsConcat(a: seq<Gate>, b: seq<Gate>)
    requires FitsRegister(a) && FitsRegister(b)
    ensures FitsRegister(a + b)
  {
    forall i | 0 <= i < |a + b|
      ensures GateFits((a + b)[i])
    {
      if i < |a| {
        assert (a + b)[i] == a[i];
      } else {
        assert (a + b)[i] == b[i - |a|];
      }
    }
  }

  lemma RotationsFit(params: seq<real>, s: nat)
    requires s + 8 <= |params|
    ensures FitsRegister(Rotations(params, s))
  {
    RotationsSpelledOut(params, s);
  }

  lemma EntanglerFits(t: Topology)
    ensures FitsRegister(Entangler(t))
  {
  }

  lemma {:induction false} EmittedFitsRegister(t: Topology, params: seq<real>, n: nat)
    requires 8 * n <= |params|
    ensures FitsRegister(Emitted(t, params, n))
  {
    if n > 0 {
      var prev := Emitted(t, params, n - 1);
      var rot := Rotations(params, 8 * (n - 1));
      EmittedFitsRegister(t, params, n - 1);
      RotationsFit(params, 8 * (n - 1));
      EntanglerFits(t);
      FitsConcat(prev, rot);
      FitsConcat(prev + rot, Entangler(t));
    }
  }

  /** Every gate of either form acts within the four-qubit register. */
  lemma TemplateFitsRegister(t: Topology, params: seq<real>, depth: int)
    requires ParamCount(depth) <= |params|
    ensures FitsRegister(Template(t, params, depth))
  {
    var n := 3 * Repetitions(depth);
    EmittedFitsRegister(t, params, n);
    RotationsFit(params, 8 * n);
    FitsConcat(Emitted(t, params, n), Rotations(params, 8 * n));
  }

  /** Two parameter vectors that agree on [start, start + n) give the same rows. */
  lemma {:induction false} RowsAgree(p: seq<real>, q: seq<real>, start: nat, n: nat)
    requires start + n <= |p| && start + n <= |q|
    requires forall k | start <= k < start + n :: p[k] == q[k]
    ensures RyRow(p, start, n) == RyRow(q, start, n) && RzRow(p, start, n) == RzRow(q, start, n)
  {
    if n > 0 {
      RowsAgree(p, q, start, n - 1);
      assert p[start + n - 1] == q[start + n - 1];
    }
  }

  lemma RotationsAgree(p: seq<real>, q: seq<real>, s: nat)
    requires s + 8 <= |p| && s + 8 <= |q|
    requires forall k | s <= k < s + 8 :: p[k] == q[k]
    ensures Rotations(p, s) == Rotations(q, s)
  {
    RowsAgree(p, q, s, 4);
    RowsAgree(p, q, s + 4, 4);
  }

  lemma {:induction false} EmittedAgree(t: Topology, p: seq<real>, q: seq<real>, n: nat)
    requires 8 * n <= |p| && 8 * n <= |q|
    requires forall k | 0 <= k < 8 * n :: p[k] == q[k]
    ensures Emitted(t, p, n) == Emitted(t, q, n)
  {
    if n > 0 {
      var m := n - 1;
      calc {
        Emitted(t, p, n);
        { EmittedNext(t, p, m); }
        Emitted(t, p, m) + Rotations(p, 8 * m) + Entangler(t);
        { EmittedAgree(t, p, q, m); RotationsAgree(p, q, 8 * m); }
        Emitted(t, q, m) + Rotations(q, 8 * m) + Entangler(t);
        { EmittedNext(t, q, m); }
        Emitted(t, q, n);
      }
    }
  }

  /** The gate list depends only on the first ParamCount(depth) entries:
      cutting the vector there (or changing anything past it) changes nothing. */
  lemma TemplateIgnoresTail(t: Topology, params: seq<real>, depth: int)
    requires ParamCount(depth) <= |params|
    ensures Template(t, params[..ParamCount(depth)], depth) == Template(t, params, depth)
  {
    var n := 3 * Repetitions(depth);
    var cut := params[..ParamCount(depth)];
    assert forall k | 0 <= k < 8 * n + 8 :: cut[k] == params[k];
    EmittedAgree(t, cut, params, n);
    RotationsAgree(cut, params, 8 * n);
  }

  // ---------------------------------------------------------------------
  // Sequence facts, proved once in a small context.

  lemma SliceOfLeft<T>(a: seq<T>, b: seq<T>, lo: nat, hi: nat)
    requires lo <= hi <= |a|
    ensures (a + b)[lo..hi] == a[lo..hi]
  {
  }

  lemma SliceOfRight<T>(a: seq<T>, b: seq<T>)
    ensures (a + b)[|a|..|a| + |b|] == b
  {
  }

  lemma SliceExtend<T>(p: seq<T>, lo: nat, hi: nat)
    requires lo <= hi < |p|
    ensures p[lo..hi + 1] == p[lo..hi] + [p[hi]]
  {
  }

  lemma PrefixSplit<T>(p: seq<T>, a: nat, b: nat)
    requires a <= b <= |p|
    ensures p[..b] == p[..a] + p[a..b]
  {
  }

  lemma RotationsLength(params: seq<real>, s: nat)
    requires s + 8 <= |params|
    ensures |Rotations(params, s)| == 8
  {
    RowLength(params, s, 4);
    RowLength(params, s + 4, 4);
  }
}
