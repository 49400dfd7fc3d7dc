# Pauli-basis measurement and backend dispatch, modelled in Dafny

This project models the measurement side of the `Calibrating-error-extrapolation` quantum
chemistry code and proves properties of the model:

- `PauliBasis`. It holds an upper-cased Pauli string and a lazily computed list of active
  qubits. It appends basis-change gates and measurements to a circuit. It decides commutation
  (`difference`) and containment (`contains`), and it stores a counts table.
- The counts pipeline of `CountsBackend`:
  - `circ2circuits` builds one measured circuit per basis;
  - `circuits2jobs` cuts the circuits into batches and submits one job per batch;
  - `jobs2counts` flattens the job results in order and writes them onto the bases by position;
  - `run` picks the default bases and composes the three.
- The capability predicates of the wrapper: `is_statevector`, `is_aer`, `is_noiseless`, the
  `name` preference rule and the `connectivity` table.
- Backend-name resolution:
  - the prefix dispatch of `get_backend`;
  - the mock-device class name;
  - the clamp table of the synthetic noise model;
  - the wrapper choice in `get_backendwrapper`.
- `evaluate_pauli` and the energy loop of the estimator script.

A qiskit circuit is a `Circuits.Circuit` object whose state is a list of gate records (`Sdg`,
`H`, `Measure(q, c)`, `Barrier`) plus its qubit and clbit counts. Three things are parameters of
the model rather than modelled:

- `transpile` is an arbitrary function on circuit states;
- job submission is an arbitrary function from a batch to a job;
- the ideal device behind `Run` is an arbitrary function giving each circuit its counts table.

Python floats become `real`, counts weights are `int`, strings are `seq<char>`, and
upper/lower-casing is ASCII.

Two behaviours of the code worth noting:

- `PauliBasis("IX").difference("XI")` returns 1. It does not raise `CommutationError`, because no
  position holds two non-I symbols (`PauliBases.ContainsExamples`).
- `sim10` clamps nothing. Its probabilities are 0.01, 0.1, 0.3 and 0.15, so no warning is issued
  (`Accounts.Sim10ClampsNothing`). The two-qubit channel is capped only above level 100, and then
  to 2, not 1 (see Findings).

## Model

| member | source | states |
|---|---|---|
| PyStrings.Upper | backends/counts_backendwrapper.py:115 | `str.upper` (definition of the primitive; its ensures spells it out position by position): same length, each ASCII letter upper-cased |
| PyStrings.Lower | backends/account.py:58-62 | `str.lower` (definition of the primitive; its ensures spells it out position by position): same length, each ASCII letter lower-cased |
| PyStrings.Slice | backends/account.py:58-60 | `s[lo:hi]` (definition of the primitive): Python's negative and clipped bounds |
| PyStrings.LexLessIrreflexive | backends/counts_backendwrapper.py:90-93 | no string is below itself in str order |
| PyStrings.LexLessTransitive | backends/counts_backendwrapper.py:90-97 | str `<` is transitive |
| PyStrings.LexLessTrichotomy | backends/counts_backendwrapper.py:90-101 | exactly one of `a < b`, `a == b`, `b < a` |
| Circuits.MeasureGates | backends/counts_backendwrapper.py:88 | `circuit.measure(qs, cs)` (definition of the primitive; its ensures spells it out position by position): one `Measure(qs[k], cs[k])` per pair, in order |
| Circuits.Circuit.constructor | backends/counts_backendwrapper.py:35 | `circuit.copy()`: a new, independent circuit whose state is exactly the given one |
| Circuits.Circuit.AddBarrier | backends/counts_backendwrapper.py:127 | appends one barrier; nothing else changes |
| Circuits.Circuit.ApplySdg | backends/counts_backendwrapper.py:130 | appends `Sdg(j)`; nothing else changes |
| Circuits.Circuit.ApplyH | backends/counts_backendwrapper.py:132 | appends `H(j)`; nothing else changes |
| Circuits.Circuit.MeasureAll | backends/counts_backendwrapper.py:88 | appends the measurements of the pairs in order |
| Circuits.Circuit.AddClassicalRegister | backends/counts_backendwrapper.py:86 | adds one clbit per qubit; the gates are unchanged |
| PauliBases.FirstUnknown | backends/counts_backendwrapper.py:128-134 | the first position whose symbol is not I, X, Y or Z; all before it are known |
| PauliBases.RotationsExtend | backends/counts_backendwrapper.py:128-134 | the rotations of qubit j are appended after those of the qubits before it |
| PauliBases.ActiveIndicesCharacterised | backends/counts_backendwrapper.py:125 | `initialise`'s list is strictly ascending and holds exactly the non-I positions |
| PauliBases.RotationsInQubitOrder | backends/counts_backendwrapper.py:128-134 | the rotations are only `Sdg`/`H` on qubits of the string, in non-decreasing qubit order, `Sdg` before `H` on a qubit |
| PauliBases.RotationsExactlyOnXY | backends/counts_backendwrapper.py:128-134 | `H(j)` is emitted iff symbol j is X or Y; `Sdg(j)` iff it is Y |
| PauliBases.MeasuresExactlyActive | backends/counts_backendwrapper.py:86-88 | `Measure(q, c)` is emitted iff q is a non-I position and `c = nc - q - 1` |
| PauliBases.ApplyXX | backends/counts_backendwrapper.py:83-89 | "XX" on two qubits gives H(0), H(1), then qubit 0 into clbit 1 and qubit 1 into clbit 0; a circuit with no clbits gets two first |
| PauliBases.ExtraZero | backends/counts_backendwrapper.py:141-148 | the I-in-self count is 0 iff no position has I in self and non-I in other |
| PauliBases.DifferenceCharacterised | backends/counts_backendwrapper.py:138-148 | `difference` raises `CommutationError` iff a common position holds two non-I, unequal symbols (the I padding never clashes); otherwise it counts the positions where self is I and other is not |
| PauliBases.ContainedIff | backends/counts_backendwrapper.py:106-109 | a contains b iff every non-I symbol of b is matched by the same symbol of a |
| PauliBases.ContainedReflexive | backends/counts_backendwrapper.py:106-109 | every basis contains itself |
| PauliBases.ContainsExamples | backends/counts_backendwrapper.py:106-109 | "IX" contains "IX", not "XX"; `"IX".difference("XI")` is 1 |
| PauliBases.PauliBasis.constructor | backends/counts_backendwrapper.py:81-82 | stores the upper-cased string, no `active`, no results |
| PauliBases.PauliBasis.SetBasis | backends/counts_backendwrapper.py:113-116 | stores the upper-cased string and resets `active` to None; results are kept |
| PauliBases.PauliBasis.SetResults | backends/counts_backendwrapper.py:121-123 | the results become the table; nothing else changes |
| PauliBases.PauliBasis.Results | backends/counts_backendwrapper.py:117-120 | the stored table, or `AttributeError` before any was assigned |
| PauliBases.PauliBasis.Initialise | backends/counts_backendwrapper.py:124-125 | `active` becomes the ascending non-I positions |
| PauliBases.PauliBasis.ApplyRotations | backends/counts_backendwrapper.py:126-135 | appends the barrier (if asked) and the rotations of the known prefix; raises `KeyError(P)` for the first unknown symbol P, after the earlier gates were appended |
| PauliBases.PauliBasis.Apply | backends/counts_backendwrapper.py:83-89 | computes `active` if missing; the new circuit state is the rotations, a register if there were no clbits, then the measurements of the active qubits; errors as `ApplyRotations` |
| PauliBases.PauliBasis.Less | backends/counts_backendwrapper.py:90-93 | `__lt__` (definition, no contract of its own): the basis string, or a raw string operand, compared by `LexLess`; characterised by `ComparisonsTotal` and the `LexLess` lemmas |
| PauliBases.PauliBasis.Greater | backends/counts_backendwrapper.py:94-97 | `__gt__` (definition, no contract of its own): `LexLess` with the operands swapped; characterised by `ComparisonsTotal` |
| PauliBases.PauliBasis.Equal | backends/counts_backendwrapper.py:98-101 | `__eq__` (definition, no contract of its own): the strings are equal; characterised by `ComparisonsTotal` and `HashAgreesWithEqual` |
| PauliBases.PauliBasis.Hash | backends/counts_backendwrapper.py:102-103 | `__hash__` (definition, no contract of its own): the string's hash; `HashAgreesWithEqual` states its contract with `Equal` |
| PauliBases.PauliBasis.Length | backends/counts_backendwrapper.py:104-105 | `__len__` (definition, no contract of its own): the length of the basis string |
| PauliBases.PauliBasis.ComparisonsTotal | backends/counts_backendwrapper.py:90-101 | `<`, `==`, `>` against a basis or a raw string: exactly one holds |
| PauliBases.PauliBasis.HashAgreesWithEqual | backends/counts_backendwrapper.py:98-103 | equal bases hash alike |
| PauliBases.PauliBasis.Difference | backends/counts_backendwrapper.py:138-148 | the loop's answer is `DifferenceOf(self, other)` (characterised above); `check` is ignored |
| PauliBases.PauliBasis.Contains | backends/counts_backendwrapper.py:106-109 | never raises; true iff `difference` returns 0 |
| BackendWrappers.Name | backends/base_backendwrapper.py:18-20 | `name` (definition, no contract of its own): `custom_name` when present, else `backend.name()`; exercised by `CapabilityExamples` |
| BackendWrappers.IsStatevectorName | backends/base_backendwrapper.py:67-68 | `is_statevector(name)` (definition, no contract of its own): exact, case-sensitive membership in the two names |
| BackendWrappers.IsStatevector | backends/base_backendwrapper.py:39-41 | `is_statevector` of a wrapper (definition, no contract of its own): its `name` is a statevector name |
| BackendWrappers.IsAer | backends/base_backendwrapper.py:36-38 | `is_aer` (definition, no contract of its own): `backend.name()` mentions `qasm_simulator` and `name` is not `ibmq_qasm_simulator`, or statevector; `StatevectorIsAerAndNoiseless` and `CapabilityExamples` state its consequences |
| BackendWrappers.IsNoiseless | backends/base_backendwrapper.py:42-44 | `is_noiseless` (definition, no contract of its own): statevector, or named `sim0` |
| BackendWrappers.CapabilityExamples | backends/base_backendwrapper.py:18-44 | `name` prefers `custom_name`; `ibmq_qasm_simulator` is not Aer; `sim0` is noiseless and `sim2` is not; `is_statevector` is case-sensitive |
| BackendWrappers.StatevectorIsAerAndNoiseless | backends/base_backendwrapper.py:36-44 | a statevector backend is Aer and noiseless |
| BackendWrappers.Connectivity | backends/base_backendwrapper.py:24-33 | None iff there is no gate metadata; otherwise the keys are exactly the first qubits of 2-qubit gates, each mapped to its second qubits in gate order |
| BackendWrappers.ConnectivityDirectional | backends/base_backendwrapper.py:28-32 | a gate [0, 1] gives 0 -> [1] and nothing for 1; a 3-qubit gate gives nothing |
| BackendWrappers.MaxCircs | backends/base_backendwrapper.py:54-57 | the chunk size (definition, no contract of its own): every circuit on a simulator, else `max_experiments`, else 300; `CircuitsToJobs` states the single-job case on a simulator |
| BackendWrappers.ChunksConcat | backends/base_backendwrapper.py:58-62 | the chunks, concatenated in order, are the input |
| BackendWrappers.ChunksSizes | backends/base_backendwrapper.py:59-62 | at least one chunk; every chunk but the last has `max_circs` circuits; the last is non-empty unless the input is empty, which gives the single empty chunk |
| BackendWrappers.ChunksCount | backends/base_backendwrapper.py:59-62 | the number of chunks is 1 for no circuits and `ceil(N / max_circs)` otherwise |
| BackendWrappers.ChunkCircuits | backends/base_backendwrapper.py:58-62 | the `while` loop builds exactly those chunks, and they concatenate to the input |
| BackendWrappers.SubmitEach | backends/base_backendwrapper.py:63-65 | the list comprehension (definition, its ensures spells it out position by position): one answer per batch, in batch order: one job per chunk for circuits2jobs, one table per circuit on an ideal device |
| BackendWrappers.CircuitsToJobs | backends/base_backendwrapper.py:45-65 | the jobs are the chunks of size `len(circuits)` (simulators), `max_experiments`, or 300, submitted in order; a simulator gets one job with all circuits |
| CountsPipeline.Flatten | backends/counts_backendwrapper.py:51 | the flattening generator (definition, no contract of its own): each job's tables in job order, a list-valued result spliced in; `FlattenAppend`, `FlattenOne` and `CollectResults` state its contract |
| CountsPipeline.FlattenAppend | backends/counts_backendwrapper.py:51 | flattening distributes over concatenation of job lists |
| CountsPipeline.CollectResults | backends/counts_backendwrapper.py:46-51 | the tables of all jobs in job order, list-valued results spliced in |
| CountsPipeline.HeldAfterLast | backends/counts_backendwrapper.py:53-54 | after the zip loop, the object at its last position below n holds that position's table |
| CountsPipeline.HeldAfterUnreached | backends/counts_backendwrapper.py:53-54 | an object the zip loop never reached holds what it held before |
| CountsPipeline.AssignResults | backends/counts_backendwrapper.py:53-54 | table i goes to basis i while both last; a basis object listed twice keeps the later table; other bases keep theirs; strings and `active` are untouched |
| CountsPipeline.JobsToCounts | backends/counts_backendwrapper.py:36-55 | `IndexError` for no jobs; the flattened tables without bases; otherwise the same bases, annotated by position |
| CountsPipeline.BasisCircuit | backends/counts_backendwrapper.py:35 | one basis applied to a fresh copy of the compiled circuit, compiled again; the basis's active qubits are computed either way; fails iff the basis has an unknown symbol, with its `KeyError` |
| CountsPipeline.ApplyBases | backends/counts_backendwrapper.py:35 | circuit k is basis k applied to its own copy of the compiled circuit and compiled; on success every basis has its active qubits computed; fails iff some basis has an unknown symbol, with the `KeyError` of the first such basis |
| CountsPipeline.Circ2Circuits | backends/counts_backendwrapper.py:24-35 | registers a clbit-less circuit; circuit k is `transpile(apply(basis k, copy of transpile(circuit)))` and every basis has its active qubits computed; fails exactly when some basis has an unknown symbol, with the first such basis's `KeyError` |
| CountsPipeline.Repeat | backends/counts_backendwrapper.py:71-72 | `c * n` (definition of the primitive; its ensures spells it out position by position): n copies of c |
| CountsPipeline.NoRotationsOnIZ | backends/counts_backendwrapper.py:129 | a string of I and Z emits no rotation |
| CountsPipeline.NoActiveOnI | backends/counts_backendwrapper.py:125 | an all-I string has no active qubit |
| CountsPipeline.DefaultBasesPlain | backends/counts_backendwrapper.py:71-72 | the default strings are unchanged by upper-casing, valid, and rotate nothing |
| CountsPipeline.DefaultBasisMeasuresAll | backends/counts_backendwrapper.py:71 | the `'def'` basis measures every qubit q into clbit `nc - q - 1` |
| CountsPipeline.NoBasisMeasuresNothing | backends/counts_backendwrapper.py:72 | the basis used for `bases=None` measures nothing |
| CountsPipeline.IdealTables | backends/counts_backendwrapper.py:50-51 | an ideal job's tables are its circuits' outcomes, also for a one-circuit job that reports a single table |
| CountsPipeline.OutcomesAppend | backends/counts_backendwrapper.py:51 | the per-circuit outcomes of a concatenation are the outcomes of its parts, concatenated |
| CountsPipeline.FlattenOne | backends/counts_backendwrapper.py:51 | one job flattens to its own tables |
| CountsPipeline.FlattenIdealJobs | backends/counts_backendwrapper.py:46-52 | with an ideal device, the flattened results of any batching are the outcomes of the concatenated batches |
| CountsPipeline.IdealJobsResults | backends/base_backendwrapper.py:58-65 | the submitted jobs are never empty, and their flattened results are the circuits' outcomes in order |
| CountsPipeline.RunBases | backends/counts_backendwrapper.py:73 | with fixed bases: succeeds iff every basis is known, and then every basis has its active qubits computed and (at its last position) holds the outcome of its own measured circuit; it fails only with `KeyError`, and then no basis's results have changed |
| CountsPipeline.BasesFor | backends/counts_backendwrapper.py:71-72 | `'def'` gives one fresh all-Z basis, None one fresh all-I basis, otherwise the caller's bases |
| CountsPipeline.Run | backends/counts_backendwrapper.py:56-73 | end to end: registration, default bases, success iff every caller's basis is known, every basis annotated with the outcome of `transpile(apply(basis, transpile(circuit)))` and its active qubits computed, and the caller's own bases object returned; on `KeyError` the caller's bases keep their results |
| CountsPipeline.RegisteredIdempotent | backends/counts_backendwrapper.py:33 | registering a circuit a second time changes nothing |
| CountsPipeline.RunGiven | backends/counts_backendwrapper.py:73 | `run` on circuit k of a list with caller's bases: circuit k is registered and the circuits before it stay registered; it succeeds iff every given basis is known, and then the same list comes back holding circuit k's outcomes; on failure the bases keep their results |
| CountsPipeline.RunDefault | backends/counts_backendwrapper.py:71-73 | `run` on circuit k of a list for `'def'` or None: it always succeeds; circuit k is registered and the circuits before it stay registered; the answer is one default basis holding circuit k's outcome, and the answers for earlier circuits keep theirs |
| CountsPipeline.RegisterStep | backends/counts_backendwrapper.py:70 | given the circuit states before and after circuit k is run, where only circuit k (and any entry for the same object) changed: if the circuits before k were registered, so are the circuits before k + 1, and a circuit listed twice stays registered |
| CountsPipeline.AllDefaultAppend | backends/counts_backendwrapper.py:70-73 | helper step of `RunEachDefault`: adding the answer for the next circuit keeps every answer its own default basis and outcome |
| CountsPipeline.RunEachGiven | backends/counts_backendwrapper.py:70 | every circuit run in order with caller's bases: succeeds iff there are no circuits or every given basis is known; then each circuit is registered, each answer is that same list, which ends up holding the outcomes of the last circuit. A failure comes from circuit 0: it alone is registered, every other circuit is unchanged, and the bases keep their results |
| CountsPipeline.RunRestGiven | backends/counts_backendwrapper.py:70 | the circuits after the first, once every given basis is known: each is registered, each answer is the same list, and the list ends up holding the last circuit's outcomes |
| CountsPipeline.RunEachDefault | backends/counts_backendwrapper.py:70-73 | every circuit run in order for `'def'` or None: it always succeeds; each circuit is registered, and answer k is one default basis for circuit k's qubits holding circuit k's outcome |
| CountsPipeline.RunManyGiven | backends/counts_backendwrapper.py:70 | a list of circuits with caller's bases: succeeds iff the list is empty or every given basis is known; on success every circuit is registered and every answer is that same list, holding the results of the last circuit; on failure only circuit 0 is registered, the other circuits are unchanged and the bases keep their results |
| CountsPipeline.RunManyDefault | backends/counts_backendwrapper.py:70 | a list of circuits for `'def'` or None: it always succeeds, every circuit is registered, and answer k is its own default basis for circuit k's qubits, holding circuit k's outcome |
| CountsPipeline.RunMany | backends/counts_backendwrapper.py:70 | a list of circuits: succeeds iff the list is empty or every caller's basis is known (always for `'def'` and None), failing only with `KeyError`; on success there is one answer per circuit and every circuit is registered; for `'def'` or None answer k is one default basis holding circuit k's outcome; with caller's bases every answer is that same list, holding the results of the last circuit; on failure only circuit 0 is registered, the other circuits are unchanged and the bases keep their results |
| Accounts.GetBackend | backends/account.py:58-64 | the prefix dispatch (definition, no contract of its own): first match wins; its routes are stated by `FakeUnderscoreRoutes`, `FakeParenRoutes`, `QasmFakeRoutes`, `SimRoutesToModel`, `StatevectorAnyCase` and `ProviderExamples` |
| Accounts.FakeClassName | backends/account.py:73 | `IndexError` iff the device name is empty; otherwise "Fake", the upper-cased first character, then the rest unchanged |
| Accounts.FakeClassNameSame | backends/account.py:73 | two device names give one class iff their first characters agree upper-cased and their tails are equal |
| Accounts.LowerPrefix | backends/account.py:58-61 | a prefix test looks only at the first n characters |
| Accounts.FakeUnderscoreRoutes | backends/account.py:58 | any case of `fake_` followed by d resolves to the device d, its case kept |
| Accounts.FakeParenRoutes | backends/account.py:59 | any case of `fake(` followed by d and one more character resolves to device d |
| Accounts.QasmFakeRoutes | backends/account.py:60 | any case of `qasm_simulator(fake_` followed by d and one more character resolves to device d |
| Accounts.SimRoutesToModel | backends/account.py:61 | every name starting with `sim` in any case goes to the noise model, whole |
| Accounts.StatevectorAnyCase | backends/account.py:62 | `statevector_simulator` and `vec` in any case resolve to the statevector simulator |
| Accounts.FakeUnderscoreExample | backends/account.py:58 | `FAKE_montreal` gives class `FakeMontreal` |
| Accounts.FakeParenExample | backends/account.py:59 | `fake(mUmbai)` gives class `FakeMUmbai` |
| Accounts.QasmFakeExample | backends/account.py:60 | `qasm_simulator(fake_lima)` gives class `FakeLima` |
| Accounts.EmptyDeviceFails | backends/account.py:58-59 | `fake_` and `fake()` fail with `IndexError` |
| Accounts.ProviderExamples | backends/account.py:63-64 | `ibmq_montreal` and the empty name go to the provider unchanged (for the empty name `all_backends` filters on no name) |
| Accounts.ClampTable | backends/account.py:79-91 | the clamp table with the two-qubit cap as a parameter (definition, no contract of its own); `ClampErrors`, `ClampThresholds` and `LimitedMonotone` state its contract |
| Accounts.NoiseAsWritten | backends/account.py:79-91 | the table as written, two-qubit cap 2 (definition, no contract of its own); `ModelNoise` computes it and `AsWrittenTwoQubitExceedsOne` shows the over-large value |
| Accounts.NoiseIntended | backends/account.py:79-91 | the table with every channel capped at a probability (definition, no contract of its own); `IntendedProbabilitiesBounded` states its bounds |
| Accounts.CapChannel | backends/account.py:87-90 | one cap step: the value is replaced iff it exceeds the bound, and then the channel is recorded |
| Accounts.ModelNoise | backends/account.py:79-91 | the step-by-step computation equals the clamp table as written |
| Accounts.ClampErrors | backends/account.py:79-86 | only a negative level raises (`ValueError`); an unparsable level is level 0 named `sim0`, nothing capped; otherwise the name is kept |
| Accounts.ClampThresholds | backends/account.py:81-91 | capped channels by level: one-qubit above 1000, two-qubit above 100, readout 1->0 above 100/3, 0->1 above 50/3; an uncapped channel keeps its exact product; the warning is issued iff a channel is capped |
| Accounts.LimitedMonotone | backends/account.py:81-90 | a higher level caps a superset of channels |
| Accounts.Sim10ClampsNothing | backends/account.py:81-91 | `sim10` gives 0.01, 0.1, 0.3, 0.15, nothing capped, no warning |
| Accounts.AsWrittenTwoQubitExceedsOne | backends/account.py:88 | as written, level 150 sets the two-qubit error to 2 |
| Accounts.IntendedProbabilitiesBounded | backends/account.py:87-90 | with the two-qubit cap at 1, every error probability is in [0, 1], the readout ones in [0, 1/2] |
| Interface.GetBackendWrapper | backends/interface.py:23-27 | the wrapper choice (definition, no contract of its own); `WrapperKindCharacterised` states its contract in both directions |
| Interface.WrapperKindCharacterised | backends/interface.py:23-27 | StatevectorBackend iff the string, or the object's own `name()`, is exactly `statevector_simulator` or `vec`; objects are kept; a string fails iff `get_backend` does |
| Interface.StatevectorWrapperHoldsSimulator | backends/interface.py:24 | a StatevectorBackend built from a name holds the statevector simulator |
| Interface.UpperVecGetsCountsWrapper | backends/interface.py:24-25 | `"VEC"` gives a CountsBackend around the statevector simulator |
| Interface.ObjectClassifiedByIntrinsicName | backends/interface.py:26-27 | an object with `custom_name` "vec" gets a CountsBackend, though that wrapper reports itself as statevector |
| Estimator.Evaluate | estimator_mwe.py:6-13 | what `evaluate_pauli` returns or raises (definition, no contract of its own); `EvaluatePauli` computes it, and `EvaluateBounded`, `IdentityGivesOne`, `AllZeroKeysGiveOne` and `ZeroTotalRaises` state its properties |
| Estimator.EvaluatePauli | estimator_mwe.py:6-13 | the nested loops compute the signed weighted sum over the total, or `ZeroDivisionError` |
| Estimator.SignIsUnit | estimator_mwe.py:9-11 | every sign is 1 or -1 |
| Estimator.SignedSumBounded | estimator_mwe.py:8-12 | with non-negative weights, the signed sum lies within plus or minus the total |
| Estimator.EvaluateBounded | estimator_mwe.py:12-13 | with non-negative weights and a positive total, the value lies in [-1, 1] |
| Estimator.DivideWithin | estimator_mwe.py:13 | helper step of `EvaluateBounded`: a quotient of a value within plus or minus a positive total lies in [-1, 1] |
| Estimator.NoFlips | estimator_mwe.py:10-11 | no '1' under a non-I symbol means no flip |
| Estimator.AllPositive | estimator_mwe.py:8-12 | all signs 1 makes the signed sum the total |
| Estimator.OneOverItself | estimator_mwe.py:13 | helper step of `IdentityGivesOne`: a non-zero total over itself is 1 |
| Estimator.IdentityGivesOne | estimator_mwe.py:9-13 | an all-I string gives exactly 1 |
| Estimator.AllZeroKeysGiveOne | estimator_mwe.py:9-13 | keys without a '1' give exactly 1 |
| Estimator.ZeroTotalRaises | estimator_mwe.py:13 | empty or zero-total results divide by zero |
| Estimator.BitOrderContract | estimator_mwe.py:10 | every measurement `apply` emits puts non-I qubit q at big-endian key position q, so the zip pairs each symbol with its own qubit's bit |
| Estimator.TermFailurePersists | estimator_mwe.py:35-38 | an error within a term's bases is the term's answer |
| Estimator.HamFailurePersists | estimator_mwe.py:34-38 | an error within a prefix of the terms is the loop's answer |
| Estimator.TermStep | estimator_mwe.py:35-38 | one basis moves the term's running sum on, or its error becomes the term's answer |
| Estimator.HamStep | estimator_mwe.py:34-38 | one term adds its sum to the energy, or its error becomes the loop's answer |
| Estimator.Step | estimator_mwe.py:36-38 | one basis: add `evaluate_pauli` if it contains the term; errors from `results` or the division |
| Estimator.AddTerm | estimator_mwe.py:35-38 | the inner loop gives the term's sum over containing bases, or the first error |
| Estimator.Energy | estimator_mwe.py:33-38 | the script's loop gives the sum over terms of the term sums, or the first error |
| Estimator.EnergyIgnoresCoefficients | estimator_mwe.py:28-37 | two Hamiltonians with the same terms in the same order give the same energy, whatever their coefficients |
| Estimator.TermSumDefined | estimator_mwe.py:35-37 | a term's sum is defined iff every containing basis has results with a non-zero total; otherwise it is `AttributeError` or `ZeroDivisionError` |
| Estimator.UncoveredTermIsZero | estimator_mwe.py:35-36 | a term no basis contains adds 0, silently |
| Estimator.DuplicateBasisCountedTwice | estimator_mwe.py:35-38 | a containing basis listed twice adds the term's value twice |
| Estimator.SingleCoverTerm | estimator_mwe.py:35-37 | a term only one basis contains gets exactly that basis's value |
| Estimator.MinimalExampleCover | estimator_mwe.py:28-36 | among the bases XX, YY and ZZ each contains its own string and no other |
| Estimator.MinimalExampleTerms | estimator_mwe.py:28-37 | in the script's case each term's sum is the value from its own basis alone |
| Estimator.HamSumOfThree | estimator_mwe.py:33-38 | a three-term Hamiltonian whose term sums are all defined gets their total |
| Estimator.MinimalExampleEnergy | estimator_mwe.py:28-38 | XX + YY + ZZ in bases XX, YY, ZZ: the energy is the sum of the three values, each from its own basis |

## Left out

- Job polling (`in_final_state`, `sleep(5)`) and `retrieve_job` for job IDs: blocking remote I/O. A job is modelled by the value of its `get_counts()`.
- qiskit's `transpile`, `assemble` and `backend.run`, and the circuit's `copy`: code outside the repository. They are parameters or value copies.
- `add_classicalregister` belongs to the circuit class, which is not part of this model. It is assumed to add one clbit per qubit.
- qiskit's checks on qubit and clbit indices: not modelled. A basis longer than the circuit, or a circuit with fewer clbits than qubits, is not rejected.
- The `__getattr__` forwarding to the backend, and `n_qubits`: calls into backend objects that are not part of this model.
- Account login, the global `ACCOUNT`, `all_backends` and the provider query of `get_backend`: network and session state. The route names the name to look up. The unreachable string `raise` on line 67 is not modelled.
- Construction of the simulators and noise models, the warning texts, and `float(name[3:])`: outside the model. The parsed level is an input (None when the parse raises). NaN and infinities are not modelled.
- Accounts.ModelNoise: the probabilities are exact reals, not the float products.
- The class lookup in `qiskit.test.mock` is not modelled. A device name with no mock class fails there, not here.
- `__str__`: a display string.
- `backends/vector_backendwrapper.py` and `extrapolation2.py` are not part of this model. The latter's `evaluate_pauli` and term loop duplicate the estimator's.
- `run` on nested lists of circuits: only one level of list is modelled (`RunMany`).
- BackendWrappers.ChunkingTerminates: the `while` of circuits2jobs (backends/base_backendwrapper.py:59-61) never ends when `max_circs` is below 1 with circuits left, or negative with none. The model requires a chunk size outside those cases, so a device reporting such a `max_experiments` is not modelled.
- The `bases` argument as an arbitrary iterable (a generator, a set): bases are a sequence.
- PauliBases.PauliBasis.Apply: requires that a cached `active` matches the current string. The class's own methods keep this; code outside the class that overwrites `active` is not modelled.
- CountsPipeline.Run: its end-to-end statement assumes an ideal device (each job reports one table per circuit, in order). What a real device returns is not modelled.
- Estimator.Energy: additions are exact reals, so floating-point rounding and summation order are not modelled.
- Non-ASCII case mapping in `upper` and `lower`: not modelled.

## Findings

| source | as written | input that shows it | evidently intended | confidence | as-written member | corrected member |
|---|---|---|---|---|---|---|
| backends/account.py:88 | an over-large two-qubit error `p2 > 1` is set to 2 | level 150 (`sim150`): `p2 = 1.5` becomes 2, which is not a probability | cap at 1: line 87 caps `p1` at 1, and the warning at line 91 says the errors "cannot be increased further", so every error should stay a probability | medium, not executed | Accounts.AsWrittenTwoQubitExceedsOne | Accounts.IntendedProbabilitiesBounded |

`Accounts.ModelNoise` and `Accounts.NoiseAsWritten` keep the source's cap of 2.
`Accounts.NoiseIntended` is the corrected table. Nothing else in the model reads the noise
settings.
