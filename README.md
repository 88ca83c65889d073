# VVQE: RyRz variational forms, risk-adjusted cost and nearest-eigenvalue lookup

`VVQE.py` studies a variational quantum eigensolver for the H2 molecule on
four qubits. It weighs the energy estimate against its spread with a
weight `alpha`. The model covers the parts of that script whose behaviour
belongs to the script itself.

* **The two RyRz variational forms** (module `RyRz`).
  `create_VQE_circuit_RyRz_full_entangle_H2` and
  `create_VQE_circuit_RyRz_linear_entangle_H2` are modelled by one method,
  `BuildRyRz`, that takes the entangling topology as a parameter. The two
  Python functions differ only in their CX block.
  - The method runs the same nested loops as the source: `depth`
    repetitions of three layers, then one last Ry and Rz layer.
  - A running `counter` walks the parameter vector.
  - The first read past the end fails with `IndexError` at the vector's
    length, as Python's `params[counter]` does.
  - The method is proved against the gate list `Template`. Lemmas about
    `Template` state:
    - which parameters are read, and in which order;
    - the layer structure;
    - the two CX counts;
    - that the two topologies differ only in their CX gates;
    - that every gate fits the four-qubit register.
* **The risk-adjusted objective and the variational-form dispatch**
  (module `Cost`).
  - `cost_function` combines the mean and the rescaled standard
    deviation as `(1 - alpha) * mean + alpha * std`.
  - It builds the full form for exactly "Full Entanglement" and the
    linear form for every other name.
  - `find_optimal_params` re-evaluates the optimiser's final point, but
    binds a circuit only for the two exact names. Any other name, such as
    the "UCCSD" that the sweep passes by default, leaves `qc` unbound.
  - The sweep starts "UCCSD" from three parameters. The objective fails on
    that vector before anything is evaluated, because depth 1 reads 32
    entries (`Cost.SweepInitialParams`).
* **The nearest-eigenvalue scan** of `simulate_variational_forms`
  (module `Eigen`).
  - It starts from deviation 1000 and index 0.
  - It keeps an entry only when its distance to the mean is strictly
    smaller, so the lowest index wins ties.
  - It is modelled as a method with a loop, proved against the predicate
    `IsNearest`, which determines the answer uniquely.

Module `Outcomes` holds the two Python exceptions the modelled code can
raise (`IndexError`, `UnboundLocalError`) and a `Result` type.

## Model

| member | source | states |
|---|---|---|
| RyRz.AppendRotations | VVQE.py:47-52 | The two `for j in range(4)` loops of one layer. It appends Ry on qubits 0..3, then Rz on qubits 0..3, with angles `params[counter .. counter+8]`. If fewer than 8 entries remain, it fails with IndexError at `len(params)`. |
| RyRz.AppendRepetition | VVQE.py:46-58 | One pass of `for d in range(depth)`. Given what m layers emitted and `counter = 8m`, it returns what m + 3 layers emit when 24 more entries exist, and otherwise IndexError at `len(params)`. |
| RyRz.BuildRyRz | VVQE.py:32-98 | With at least 8 + 24·depth parameters, both builders return a 4-qubit, 4-clbit circuit whose gates are `Template(t, params, depth)`. With fewer, they fail with IndexError at `len(params)`. A negative depth runs no repetition. |
| RyRz.TemplateReadsPrefix | VVQE.py:44-64 | The rotation angles, in emission order, are exactly `params[..8 + 24·depth]`. So each of the first 8 + 3·8·depth entries is read once, in order, and later entries are ignored. |
| RyRz.TemplateIgnoresTail | VVQE.py:44-64 | The gate list built from a vector equals the one built from its first 8 + 24·depth entries. |
| RyRz.EmittedAngles | VVQE.py:44-58 | After n layers, the angles read are `params[..8n]`. |
| RyRz.EmittedStartsWithX | VVQE.py:42-43 | The sequence starts with X on qubit 0, then X on qubit 1. |
| RyRz.RotationsSpelledOut | VVQE.py:47-52 | One layer's rotations are Ry(params[s+j], j) for j = 0..3, then Rz(params[s+4+j], j) for j = 0..3. |
| RyRz.LayerStartClosedForm | VVQE.py:45-58 | Layer i begins at position 2 + i·(8 + block size): 14 gates per layer for the full form, 11 for the linear form. |
| RyRz.LayerAt | VVQE.py:45-58 | In what n layers emit, the slice from layer i's start to layer i+1's start is layer i's 8 rotations followed by the CX block. |
| RyRz.TemplateEnds | VVQE.py:42-64 | For every depth, including zero or negative (no repetition): length LayerStart(3·depth) + 8, X(0) and X(1) first, and the final 8 rotations last. |
| RyRz.TemplateShape | VVQE.py:42-64 | The whole gate list: length LayerStart(3·depth) + 8, X(0) and X(1) first, layer i at its slice for every i < 3·depth, and the final 8 rotations last with no CX after them. |
| RyRz.EmittedWithoutCX | VVQE.py:45-58 | Dropping the CX gates from what n layers emit gives the same sequence for both topologies. |
| RyRz.EmittedCXCount | VVQE.py:53-58 | n layers contain 6n CX gates (full) or 3n (linear). |
| RyRz.TemplateWithoutCX | VVQE.py:53-64 | With the CX gates removed, either form's gate list equals the full form's. |
| RyRz.TemplateCXCount | VVQE.py:53-58 | The full form has 18·depth CX gates and the linear form 9·depth. |
| RyRz.TemplatesDifferOnlyInCX | VVQE.py:45-98 | The full and linear forms are identical once the CX gates are removed. They contain 18·depth and 9·depth CX gates. |
| RyRz.TemplateFitsRegister | VVQE.py:39-64 | Every gate acts on qubits 0..3, and every CX acts on two distinct qubits. |
| Eigen.Abs | VVQE.py:193 | `np.abs` on a real: non-negative and equal to x or -x. |
| Eigen.NearestEigenstate | VVQE.py:190-198 | The scan's (index, temp_rec) satisfies IsNearest. Either no distance is below 1000 and (0, 1000) stays, or temp_rec is the smallest distance and index the first position attaining it. |
| Eigen.NearestUnique | VVQE.py:190-198 | IsNearest has at most one solution, so the scan's answer is fully determined by the spectrum and the mean. |
| Eigen.NearestSentinel | VVQE.py:190-195 | The deviation lies in [0, 1000]. It is below 1000 exactly when some eigenvalue lies closer than 1000. At 1000 the index is 0. |
| Eigen.NearestExample | VVQE.py:190-195 | With spectrum [-1.0, -0.5, 0.2] and mean -0.6, the answer is index 1 at distance 0.1. |
| Cost.RiskAdjustedCost | VVQE.py:133 | alpha = 0 gives the mean, and alpha = 1 gives the standard deviation. |
| Cost.CostBetween | VVQE.py:133 | The cost minus the mean equals alpha·(std − mean). For alpha in [0, 1], the cost lies between min(mean, std) and max(mean, std). |
| Cost.Interpolate | VVQE.py:133 | A weight in [0, 1] keeps (1 − a)·lo + a·hi within [lo, hi]. |
| Cost.CostTopology | VVQE.py:119-125 | cost_function builds the full form if and only if the name is exactly "Full Entanglement", and the linear form otherwise. |
| Cost.FinalTopology | VVQE.py:140-145 | find_optimal_params binds the full form exactly for "Full Entanglement" and the linear form exactly for "Linear Entanglement". It fails with UnboundLocalError on `qc` exactly for every other name. |
| Cost.DispatchAsymmetry | VVQE.py:119-145 | The two dispatches agree wherever find_optimal_params binds a circuit. It fails exactly for names other than the two known ones, and on those names cost_function uses the linear form. |
| Cost.UccsdExample | VVQE.py:119-145 | "UCCSD" is costed with the linear form but has no circuit in find_optimal_params. |
| Cost.SweepInitialParams | VVQE.py:180-183 | Depth 1 reads 32 parameters, the length of the RyRz start vector. The 3-entry "UCCSD" start vector makes the objective fail with IndexError at 3. |
| Cost.EvaluateObjective | VVQE.py:118-133 | cost_function as run: it dispatches on the name and calls the builder, so the builder's IndexError at `len(params)` propagates. Otherwise it evaluates the returned circuit and combines the estimate. Proved equal to `CostFunction` for every input. |
| Cost.CostIgnoresTail | VVQE.py:118-133 | Once the vector holds 8 + 24·depth entries, the objective is defined, and it costs the same as the vector cut to that length. Entries past it never influence the cost the optimiser sees. |
| Cost.CostWithinEstimate | VVQE.py:126-133 | Whenever the objective is defined, alpha = 0 gives the evaluated mean, alpha = 1 the deviation rescaled by sqrt(shots), and alpha in [0, 1] keeps the cost between the two. |
| Cost.ReportOptimum | VVQE.py:140-152 | find_optimal_params after the optimiser has returned. An unknown name fails with UnboundLocalError before any read. Otherwise it calls the builder, whose IndexError propagates, evaluates the circuit and returns the mean with the rescaled error. Proved equal to `FindOptimalParams`. |
| Cost.ReportIgnoresTail | VVQE.py:136-152 | The report depends only on the first 8 + 24·depth entries of the optimiser's point. |
| Cost.ReportMatchesObjective | VVQE.py:118-152 | At the optimiser's final point, for the two known names, the objective equals the risk-adjusted combination of the (mean, std) pair that find_optimal_params returns, for a deterministic (seeded) backend. For any other name, the objective is defined but the report fails. |

## Left out

- `get_hamiltonian` (VVQE.py:100-114) is not modelled. It drives the PyQuante/PySCF chemistry drivers and the Jordan-Wigner mapping, which are foreign code.
- Circuit execution and expectation evaluation (`construct_evaluation_circuit`, `execute`, `evaluate_with_result`) are replaced by the parameter `evaluate: Circuit -> Estimate`. That parameter is a deterministic function. The real backend samples shots at random, so two evaluations of one circuit can differ.
- The factor `np.sqrt(shots)` is the real parameter `shotsScale`. Floating-point square roots are not modelled.
- `np.real` is the identity here, because the model's estimates are already real.
- Cost.ReportOptimum: like the function `Cost.FindOptimalParams` it is proved equal to, it takes the optimiser's result `opt_params` as an input. `scipy.optimize.minimize` with COBYLA is a black-box library, and the model does not capture that it calls `cost_function` first. In the source, a name whose parameter vector is too short (the sweep's "UCCSD") therefore raises IndexError inside the optimiser before the UnboundLocalError is reached. `Cost.SweepInitialParams` states that first failure separately.
- `NumPyEigensolver` is not modelled. The spectrum the scan searches is an input of `Eigen.NearestEigenstate`.
- Floating-point arithmetic is modelled on exact reals, with no NaN and no rounding. A NaN distance never passes `<` in the source. The model has no such value.
- The final `np.abs(error_mean_matrix)` of `simulate_variational_forms` is not modelled. Every deviation the scan reports is already non-negative (`Eigen.NearestSentinel`), so it changes nothing.
- The matrix filling and the sweep loops of `simulate_variational_forms` and `find_effect_of_alpha` are not modelled, nor are the `print` calls. They only store and display the results of the modelled pieces.
- Plotting (`plot_results_var_forms`, `plot_effects_of_alpha`), the matplotlib and LaTeX setup, and the module-level CSV loading and driver calls are not modelled. They are user-interface code and file I/O.
- The quantum and classical register objects returned with the circuit are not modelled. `Circuit` records only their sizes (4 and 4).
- Python's other failure modes of the builders are not modelled: a non-integer `depth`, and a `params` that is not indexable.
