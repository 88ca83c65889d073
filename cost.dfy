/** The risk-adjusted objective and the two places that pick a builder from a
    variational-form name: cost_function, which the optimiser calls, and
    find_optimal_params, which re-evaluates the optimiser's final point.
    The simulated backend, which executes the circuit against the Hamiltonian
    and reports (mean, standard error), is the parameter `evaluate`; the factor
    sqrt(shots) that rescales the standard error is the parameter `shotsScale`. */
module Cost {
  import opened Outcomes
  import opened RyRz

  const FullEntanglement := "Full Entanglement"
  const LinearEntanglement := "Linear Entanglement"

  /** What the backend reports for one circuit: the expectation value and
      its standard error (already divided by sqrt(shots)). */
  datatype Estimate = Estimate(mean: real, stdErr: real)

  function Min(a: real, b: real): real { if a <= b then a else b }
  function Max(a: real, b: real): real { if a <= b then b else a }

  /** (1 - alpha) * mean + alpha * std: alpha = 0 keeps only the mean,
      alpha = 1 only the standard deviation. */
  function RiskAdjustedCost(alpha: real, mean: real, std: real): (c: real)
    ensures alpha == 0.0 ==> c == mean
    ensures alpha == 1.0 ==> c == std
  {
    (1.0 - alpha) * mean + alpha * std
  }

  /** For a weight in [0, 1] the cost lies between the mean and the standard
      deviation, at fraction alpha of the way from the one to the other. */
  lemma CostBetween(alpha: real, mean: real, std: real)
    requires 0.0 <= alpha <= 1.0
    ensures RiskAdjustedCost(alpha, mean, std) - mean == alpha * (std - mean)
    ensures Min(mean, std) <= RiskAdjustedCost(alpha, mean, std) <= Max(mean, std)
  {
    var c := RiskAdjustedCost(alpha, mean, std);
    assert c - mean == alpha * (std - mean);
    if mean <= std {
      Interpolate(alpha, mean, std, c);
    } else {
      assert c == (1.0 - (1.0 - alpha)) * std + (1.0 - alpha) * mean;
      Interpolate(1.0 - alpha, std, mean, c);
    }
  }

  /** A weight in [0, 1] interpolates between two ordered values. */
  lemma Interpolate(a: real, lo: real, hi: real, c: real)
    requires 0.0 <= a <= 1.0 && lo <= hi
    requires c == (1.0 - a) * lo + a * hi
    ensures lo <= c <= hi
  {
    var d := hi - lo;
    var m := a * d;
    assert c == lo + m;
    ScaleWithin(a, d, m);
  }

  lemma ScaleWithin(a: real, x: real, m: real)
    requires 0.0 <= a <= 1.0 && 0.0 <= x && m == a * x
    ensures 0.0 <= m <= x
  {
    MulNonneg(a, x);
    MulNonneg(1.0 - a, x);
    assert (1.0 - a) * x == x - a * x;
  }

  lemma MulNonneg(a: real, x: real)
    requires 0.0 <= a && 0.0 <= x
    ensures 0.0 <= a * x
  {
  }

  /** cost_function's choice: the full builder for exactly "Full
      Entanglement", the linear builder for every other name. */
  function CostTopology(varForm: string): (t: Topology)
    ensures t == Full <==> varForm == FullEntanglement
    ensures t == Linear <==> varForm != FullEntanglement
  {
    if varForm == FullEntanglement then Full else Linear
  }

  /** find_optimal_params' choice: only the two exact names bind `qc`; any
      other name leaves it unbound. */
  function FinalTopology(varForm: string): (r: Result<Topology>)
    ensures r == Ok(Full) <==> varForm == FullEntanglement
    ensures r == Ok(Linear) <==> varForm == LinearEntanglement
    ensures r.Err? <==> varForm != FullEntanglement && varForm != LinearEntanglement
    ensures r.Err? ==> r.error == UnboundLocalError("qc")
  {
    if varForm == FullEntanglement then Ok(Full)
    else if varForm == LinearEntanglement then Ok(Linear)
    else Err(UnboundLocalError("qc"))
  }

  /** The two dispatches agree on the two names find_optimal_params knows;
      on any other name (such as "UCCSD") cost_function builds the linear
      form while find_optimal_params fails. */
  lemma DispatchAsymmetry(varForm: string)
    ensures FinalTopology(varForm).Ok? ==> FinalTopology(varForm).value == CostTopology(varForm)
    ensures FinalTopology(varForm).Err? <==> varForm != FullEntanglement && varForm != LinearEntanglement
    ensures FinalTopology(varForm).Err? ==> CostTopology(varForm) == Linear
  {
    if varForm == LinearEntanglement {
      assert LinearEntanglement[0] != FullEntanglement[0];
    }
  }

  /** "UCCSD" is costed with the linear circuit but has no circuit in
      find_optimal_params. */
  lemma UccsdExample()
    ensures CostTopology("UCCSD") == Linear
    ensures FinalTopology("UCCSD") == Err(UnboundLocalError("qc"))
  {
    assert "UCCSD"[0] != FullEntanglement[0];
    assert "UCCSD"[0] != LinearEntanglement[0];
  }

  /** The sweep starts every RyRz form from 32 ones, exactly what depth 1
      reads, and "UCCSD" from 3 ones: the first objective evaluation on
      that vector already fails with IndexError at index 3. */
  lemma SweepInitialParams(ones: seq<real>, alpha: real, evaluate: Circuit -> Estimate, shotsScale: real)
    requires |ones| == 3
    ensures ParamCount(1) == 32
    ensures CostFunction(ones, alpha, evaluate, shotsScale, 1, "UCCSD") == Err(IndexError(3))
  {
  }

  /** The circuit the builder returns when params is long enough. */
  function CircuitFor(t: Topology, params: seq<real>, depth: int): Circuit
    requires ParamCount(depth) <= |params|
  {
    Circuit(Qubits, Qubits, Template(t, params, depth))
  }

  /** cost_function: build the circuit chosen by CostTopology, evaluate it,
      rescale the standard error and combine. A parameter vector too short
      for the depth raises IndexError at its length before anything is
      evaluated. */
  function CostFunction(params: seq<real>, alpha: real, evaluate: Circuit -> Estimate, shotsScale: real,
                        depth: int, varForm: string): (r: Result<real>)
    ensures r.Err? <==> |params| < ParamCount(depth)
    ensures r.Err? ==> r.error == IndexError(|params|)
    ensures r.Ok? ==> var e := evaluate(CircuitFor(CostTopology(varForm), params, depth));
                      r.value == RiskAdjustedCost(alpha, e.mean, e.stdErr * shotsScale)
  {
    if |params| < ParamCount(depth) then Err(IndexError(|params|))
    else
      var e := evaluate(CircuitFor(CostTopology(varForm), params, depth));
      Ok(RiskAdjustedCost(alpha, e.mean, e.stdErr * shotsScale))
  }

  /** find_optimal_params after the optimiser has returned `optParams`:
      bind the circuit for the name (or fail with UnboundLocalError), build
      it (or fail with IndexError), evaluate it and return the mean and the
      rescaled standard deviation. */
  function FindOptimalParams(optParams: seq<real>, evaluate: Circuit -> Estimate, shotsScale: real,
                             depth: int, varForm: string): (r: Result<(real, real)>)
    ensures FinalTopology(varForm).Err? ==> r == Err(UnboundLocalError("qc"))
    ensures FinalTopology(varForm).Ok? && |optParams| < ParamCount(depth) ==> r == Err(IndexError(|optParams|))
    ensures r.Ok? ==> FinalTopology(varForm).Ok? && ParamCount(depth) <= |optParams|
    ensures r.Ok? ==> var e := evaluate(CircuitFor(FinalTopology(varForm).value, optParams, depth));
                      r.value.0 == e.mean && r.value.1 == e.stdErr * shotsScale
  {
    var bound := FinalTopology(varForm);
    if bound.Err? then Err(bound.error)
    else if |optParams| < ParamCount(depth) then Err(IndexError(|optParams|))
    else
      var e := evaluate(CircuitFor(bound.value, optParams, depth));
      Ok((e.mean, e.stdErr * shotsScale))
  }

  /** cost_function as the source runs it: dispatch on the name, call the
      builder (whose IndexError propagates), evaluate the circuit it
      returns and combine the estimate. */
  method EvaluateObjective(params: seq<real>, alpha: real, evaluate: Circuit -> Estimate, shotsScale: real,
                           depth: int, varForm: string) returns (r: Result<real>)
    ensures r == CostFunction(params, alpha, evaluate, shotsScale, depth, varForm)
  {
    var built := BuildRyRz(CostTopology(varForm), params, depth);
    if built.Err? {
      assert |params| < ParamCount(depth);
      assert built.error == IndexError(|params|);
      assert CostFunction(params, alpha, evaluate, shotsScale, depth, varForm) == Err(IndexError(|params|));
      return Err(built.error);
    }
    assert built.value == CircuitFor(CostTopology(varForm), params, depth);
    var e := evaluate(built.value);
    var std := e.stdErr * shotsScale;
    assert e == evaluate(CircuitFor(CostTopology(varForm), params, depth));
    assert CostFunction(params, alpha, evaluate, shotsScale, depth, varForm).Ok?;
    assert CostFunction(params, alpha, evaluate, shotsScale, depth, varForm).value == RiskAdjustedCost(alpha, e.mean, std);
    r := Ok(RiskAdjustedCost(alpha, e.mean, std));
  }

  /** find_optimal_params after the optimiser has returned: bind the
      circuit for the name, call the builder, evaluate and report. */
  method ReportOptimum(optParams: seq<real>, evaluate: Circuit -> Estimate, shotsScale: real,
                       depth: int, varForm: string) returns (r: Result<(real, real)>)
    ensures r == FindOptimalParams(optParams, evaluate, shotsScale, depth, varForm)
  {
    var bound := FinalTopology(varForm);
    if bound.Err? {
      return Err(bound.error);
    }
    var built := BuildRyRz(bound.value, optParams, depth);
    if built.Err? {
      return Err(built.error);
    }
    assert built.value == CircuitFor(bound.value, optParams, depth);
    var e := evaluate(built.value);
    var report := FindOptimalParams(optParams, evaluate, shotsScale, depth, varForm);
    assert report.Ok? && report.value.0 == e.mean && report.value.1 == e.stdErr * shotsScale;
    assert report == Ok(report.value);
    r := Ok((e.mean, e.stdErr * shotsScale));
  }

  /** The objective only sees the first 8 + 24·depth entries: any longer
      vector costs the same as its prefix of that length. */
  lemma CostIgnoresTail(params: seq<real>, alpha: real, evaluate: Circuit -> Estimate, shotsScale: real,
                        depth: int, varForm: string)
    requires ParamCount(depth) <= |params|
    ensures CostFunction(params, alpha, evaluate, shotsScale, depth, varForm).Ok?
    ensures CostFunction(params[..ParamCount(depth)], alpha, evaluate, shotsScale, depth, varForm)
         == CostFunction(params, alpha, evaluate, shotsScale, depth, varForm)
  {
    var cut := params[..ParamCount(depth)];
    var c := CircuitFor(CostTopology(varForm), params, depth);
    var e := evaluate(c);
    var std := e.stdErr * shotsScale;
    var full := CostFunction(params, alpha, evaluate, shotsScale, depth, varForm);
    assert full.Ok? && full.value == RiskAdjustedCost(alpha, e.mean, std);
    TemplateIgnoresTail(CostTopology(varForm), params, depth);
    assert CircuitFor(CostTopology(varForm), cut, depth) == c;
    var short := CostFunction(cut, alpha, evaluate, shotsScale, depth, varForm);
    assert short.Ok? && short.value == RiskAdjustedCost(alpha, e.mean, std);
    assert full == Ok(full.value) && short == Ok(short.value);
  }

  /** Likewise the report after optimisation depends only on that prefix. */
  lemma ReportIgnoresTail(optParams: seq<real>, evaluate: Circuit -> Estimate, shotsScale: real,
                          depth: int, varForm: string)
    requires ParamCount(depth) <= |optParams|
    ensures FindOptimalParams(optParams[..ParamCount(depth)], evaluate, shotsScale, depth, varForm)
         == FindOptimalParams(optParams, evaluate, shotsScale, depth, varForm)
  {
    var bound := FinalTopology(varForm);
    if bound.Ok? {
      var cut := optParams[..ParamCount(depth)];
      var c := CircuitFor(bound.value, optParams, depth);
      TemplateIgnoresTail(bound.value, optParams, depth);
      assert CircuitFor(bound.value, cut, depth) == c;
      var full := FindOptimalParams(optParams, evaluate, shotsScale, depth, varForm);
      var short := FindOptimalParams(cut, evaluate, shotsScale, depth, varForm);
      assert full.Ok? && full.value.0 == evaluate(c).mean && full.value.1 == evaluate(c).stdErr * shotsScale;
      assert short.Ok? && short.value.0 == evaluate(c).mean && short.value.1 == evaluate(c).stdErr * shotsScale;
      assert full == Ok(full.value) && short == Ok(short.value);
    }
  }

  /** Whenever the objective is defined it weighs the evaluated mean against
      the rescaled standard deviation: alpha = 0 gives the mean, alpha = 1
      the deviation, and a weight in [0, 1] keeps it between the two. */
  lemma CostWithinEstimate(params: seq<real>, alpha: real, evaluate: Circuit -> Estimate, shotsScale: real,
                           depth: int, varForm: string)
    requires ParamCount(depth) <= |params|
    ensures var r := CostFunction(params, alpha, evaluate, shotsScale, depth, varForm);
      var e := evaluate(CircuitFor(CostTopology(varForm), params, depth));
      && r.Ok?
      && (alpha == 0.0 ==> r.value == e.mean)
      && (alpha == 1.0 ==> r.value == e.stdErr * shotsScale)
      && (0.0 <= alpha <= 1.0 ==> Min(e.mean, e.stdErr * shotsScale) <= r.value <= Max(e.mean, e.stdErr * shotsScale))
  {
    var e := evaluate(CircuitFor(CostTopology(varForm), params, depth));
    if 0.0 <= alpha <= 1.0 {
      CostBetween(alpha, e.mean, e.stdErr * shotsScale);
    }
  }

  /** For the two known names, the objective the optimiser minimised, taken
      at its final point, is the risk-adjusted combination of the pair that
      find_optimal_params reports (for a deterministic backend); for any
      other name the objective is defined but the report fails. */
  lemma ReportMatchesObjective(optParams: seq<real>, alpha: real, evaluate: Circuit -> Estimate,
                               shotsScale: real, depth: int, varForm: string)
    requires ParamCount(depth) <= |optParams|
    ensures CostFunction(optParams, alpha, evaluate, shotsScale, depth, varForm).Ok?
    ensures var rep := FindOptimalParams(optParams, evaluate, shotsScale, depth, varForm);
      rep.Ok? <==> (varForm == FullEntanglement || varForm == LinearEntanglement)
    ensures var rep := FindOptimalParams(optParams, evaluate, shotsScale, depth, varForm);
      rep.Ok? ==> CostFunction(optParams, alpha, evaluate, shotsScale, depth, varForm)
                  == Ok(RiskAdjustedCost(alpha, rep.value.0, rep.value.1))
  {
    DispatchAsymmetry(varForm);
    var rep := FindOptimalParams(optParams, evaluate, shotsScale, depth, varForm);
    if rep.Ok? {
      var circuit := CircuitFor(CostTopology(varForm), optParams, depth);
      assert circuit == CircuitFor(FinalTopology(varForm).value, optParams, depth);
      assert rep.value.0 == evaluate(circuit).mean;
      assert rep.value.1 == evaluate(circuit).stdErr * shotsScale;
      var cost := CostFunction(optParams, alpha, evaluate, shotsScale, depth, varForm);
      assert cost.value == RiskAdjustedCost(alpha, evaluate(circuit).mean, evaluate(circuit).stdErr * shotsScale);
      assert cost == Ok(cost.value);
    }
  }
}
