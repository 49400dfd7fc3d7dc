/** The backend wrapper shared by the counts and statevector wrappers: its name and capability
    predicates, the gate connectivity table, and the batching of circuits into jobs. The
    backend handle is reduced to the attributes the wrapper reads from it. */
module BackendWrappers {
  import opened Failures
  import opened PyStrings

  /** One entry of properties().gates: the qubits the gate acts on. */
  datatype GateProperty = GateProperty(qubits: seq<nat>)

  datatype Backend = Backend(
    intrinsicName: string,              // backend.name()
    customName: Option<string>,         // backend.custom_name, present on noise-model simulators
    gates: Option<seq<GateProperty>>,   // properties().gates, None when the backend has none
    maxExperiments: Option<int>)        // configuration().max_experiments, None when missing

  // ---------------------------------------------------------------- name and capabilities

  /** The wrapper's `name`: custom_name when the backend has one, else backend.name(). */
  function Name(b: Backend): string {
    if b.customName.Some? then b.customName.value else b.intrinsicName
  }

  /** is_statevector(name): exact, case-sensitive membership. */
  predicate IsStatevectorName(name: string) {
    name == "statevector_simulator" || name == "vec"
  }

  predicate IsStatevector(b: Backend) {
    IsStatevectorName(Name(b))
  }

  /** A simulator: backend.name() mentions qasm_simulator and the wrapper is not the hosted
      ibmq_qasm_simulator, or the backend is a statevector backend. */
  predicate IsAer(b: Backend) {
    (Occurs("qasm_simulator", b.intrinsicName) && Name(b) != "ibmq_qasm_simulator") || IsStatevector(b)
  }

  predicate IsNoiseless(b: Backend) {
    IsStatevector(b) || Name(b) == "sim0"
  }

  /** The name rule and the capability predicates on the backends the model meets: a custom
      name wins over backend.name(); the hosted simulator contains "qasm_simulator" and still
      is not Aer; a noise-model simulator is Aer, and noiseless only under the name sim0;
      statevector names are case-sensitive. */
  lemma CapabilityExamples(g: Option<seq<GateProperty>>, m: Option<int>)
    ensures Name(Backend("qasm_simulator", Some("sim2"), g, m)) == "sim2"
    ensures Name(Backend("ibmq_qasm_simulator", None, g, m)) == "ibmq_qasm_simulator"
    ensures Occurs("qasm_simulator", "ibmq_qasm_simulator")
    ensures !IsAer(Backend("ibmq_qasm_simulator", None, g, m))
    ensures IsAer(Backend("qasm_simulator", Some("sim2"), g, m))
    ensures !IsNoiseless(Backend("qasm_simulator", Some("sim2"), g, m))
    ensures IsAer(Backend("qasm_simulator", Some("sim0"), g, m))
    ensures IsNoiseless(Backend("qasm_simulator", Some("sim0"), g, m))
    ensures !IsStatevectorName("VEC") && IsStatevectorName("vec")
  {
    assert OccursAt("qasm_simulator", "ibmq_qasm_simulator", 5);
    assert OccursAt("qasm_simulator", "qasm_simulator", 0);
  }

  /** A statevector backend is an Aer backend and noiseless. */
  lemma StatevectorIsAerAndNoiseless(b: Backend)
    requires IsStatevector(b)
    ensures IsAer(b) && IsNoiseless(b)
  {
  }

  // ---------------------------------------------------------------- connectivity

  /** q1 of every 2-qubit gate q0 -> q1 with the given q0, in gate-list order. */
  function Targets(gates: seq<GateProperty>, q0: nat): seq<nat> {
    if gates == [] then []
    else
      var g := gates[|gates| - 1];
      Targets(gates[..|gates| - 1], q0) + (if |g.qubits| == 2 && g.qubits[0] == q0 then [g.qubits[1]] else [])
  }

  /** The `connectivity` attribute: None without gate metadata; otherwise every q0 of a 2-qubit
      gate maps to its q1s in gate order. Keys come only from the first qubit of a gate: the table
      is directional and not symmetrised, and gates on other numbers of qubits are ignored. */
  method Connectivity(backend: Backend) returns (r: Option<map<nat, seq<nat>>>)
    ensures backend.gates.None? <==> r.None?
    ensures r.Some? ==> forall q :: q in r.value <==> Targets(backend.gates.value, q) != []
    ensures r.Some? ==> forall q :: q in r.value ==> r.value[q] == Targets(backend.gates.value, q)
  {
    if backend.gates.None? {
      return None;
    }
    var gates := backend.gates.value;
    var conn: map<nat, seq<nat>> := map[];
    for i := 0 to |gates|
      invariant forall q :: q in conn <==> Targets(gates[..i], q) != []
      invariant forall q :: q in conn ==> conn[q] == Targets(gates[..i], q)
    {
      var g := gates[i];
      assert gates[..i + 1][..i] == gates[..i];
      if |g.qubits| == 2 {
        var q0, q1 := g.qubits[0], g.qubits[1];
        if q0 in conn {
          conn := conn[q0 := conn[q0] + [q1]];
        } else {
          conn := conn[q0 := [q1]];
        }
      }
    }
    assert gates[..|gates|] == gates;
    return Some(conn);
  }

  /** A gate on qubits (0, 1) gives 0 the target 1 and gives 1 nothing; 3-qubit gates count not. */
  lemma ConnectivityDirectional()
    ensures Targets([GateProperty([0, 1])], 0) == [1]
    ensures Targets([GateProperty([0, 1])], 1) == []
    ensures Targets([GateProperty([0, 1, 2])], 0) == []
  {
  }

  // ---------------------------------------------------------------- batching

  /** Circuits per job: all of them on a simulator, else the backend's max_experiments or 300. */
  function MaxCircs(b: Backend, n: nat): int {
    if IsAer(b) then n else if b.maxExperiments.Some? then b.maxExperiments.value else 300
  }

  /** The chunking loop ends: a positive size when there are circuits, a non-negative one when
      there are none (with max 0 and circuits left, or any negative max, it loops forever). */
  predicate ChunkingTerminates(n: nat, m: int) {
    if n == 0 then m >= 0 else m >= 1
  }

  /** The chunks circuits2jobs builds: full chunks of m while more than m remain, then the rest. */
  function Chunks<T>(xs: seq<T>, m: int): seq<seq<T>>
    requires ChunkingTerminates(|xs|, m)
    decreases |xs|
  {
    if |xs| > m then [xs[..m]] + Chunks(xs[m..], m) else [xs]
  }

  function Concat<T>(chunks: seq<seq<T>>): seq<T> {
    if chunks == [] then [] else chunks[0] + Concat(chunks[1..])
  }

  /** Concatenating the chunks in order gives back the input: nothing reordered or dropped. */
  lemma {:induction false} ChunksConcat<T>(xs: seq<T>, m: int)
    requires ChunkingTerminates(|xs|, m)
    ensures Concat(Chunks(xs, m)) == xs
    decreases |xs|
  {
    if |xs| > m {
      ChunksConcat(xs[m..], m);
      assert Chunks(xs, m)[1..] == Chunks(xs[m..], m);
    }
  }

  /** Every chunk but the last has exactly m circuits; the last has 1 to m, or is the single
      empty chunk of an empty input. */
  lemma {:induction false} ChunksSizes<T>(xs: seq<T>, m: int)
    requires ChunkingTerminates(|xs|, m)
    ensures |Chunks(xs, m)| >= 1
    ensures forall i :: 0 <= i < |Chunks(xs, m)| - 1 ==> |Chunks(xs, m)[i]| == m
    ensures xs == [] ==> Chunks(xs, m) == [[]]
    ensures xs != [] ==> 1 <= |Chunks(xs, m)[|Chunks(xs, m)| - 1]| <= m
    decreases |xs|
  {
    if |xs| > m {
      ChunksSizes(xs[m..], m);
    }
  }

  lemma {:induction false} MulMonotone(a: int, b: int, m: nat)
    requires a <= b
    ensures a * m <= b * m
    decreases b - a
  {
    if a < b {
      MulMonotone(a, b - 1, m);
      assert (b - 1) * m == b * m - m;
    }
  }

  lemma MulCancelLess(a: int, b: int, m: nat)
    requires m > 0 && a * m < b * m
    ensures a < b
  {
    if a >= b {
      MulMonotone(b, a, m);
    }
  }

  lemma DivisionUnique(x: int, m: int, k: int)
    requires m >= 1 && k * m <= x < (k + 1) * m
    ensures x / m == k
  {
    var q, r := x / m, x % m;
    assert x == q * m + r && 0 <= r < m;
    assert (q + 1) * m == q * m + m;
    MulCancelLess(q, k + 1, m);
    MulCancelLess(k, q + 1, m);
  }

  /** The number of chunks is max(1, ceil(N / m)). */
  lemma {:induction false} ChunksCount<T>(xs: seq<T>, m: int)
    requires ChunkingTerminates(|xs|, m)
    ensures xs != [] ==> (|Chunks(xs, m)| - 1) * m < |xs| <= |Chunks(xs, m)| * m
    ensures |Chunks(xs, m)| == if xs == [] then 1 else (|xs| + m - 1) / m
    decreases |xs|
  {
    var c := |Chunks(xs, m)|;
    if |xs| > m {
      ChunksCount(xs[m..], m);
      assert c == 1 + |Chunks(xs[m..], m)|;
      assert (c - 1) * m == (c - 2) * m + m;
      assert c * m == (c - 1) * m + m;
    }
    if xs != [] {
      assert c * m == (c - 1) * m + m && (c + 1) * m == c * m + m;
      DivisionUnique(|xs| + m - 1, m, c);
    }
  }

  /** The chunking loop of circuits2jobs. */
  method ChunkCircuits<T>(circuits: seq<T>, maxCircs: int) returns (chunked: seq<seq<T>>)
    requires ChunkingTerminates(|circuits|, maxCircs)
    ensures chunked == Chunks(circuits, maxCircs)
    ensures Concat(chunked) == circuits
  {
    chunked := [];
    var rest := circuits;
    while |rest| > maxCircs
      invariant ChunkingTerminates(|rest|, maxCircs)
      invariant chunked + Chunks(rest, maxCircs) == Chunks(circuits, maxCircs)
      decreases |rest|
    {
      chunked := chunked + [rest[..maxCircs]];
      rest := rest[maxCircs..];
    }
    chunked := chunked + [rest];
    ChunksConcat(circuits, maxCircs);
  }

  /** Each batch handed to `submit` with the shot count, in order, one answer per batch. A batch
      is a chunk of circuits for circuits2jobs, and a single circuit for an ideal device. */
  function SubmitEach<B, J>(batches: seq<B>, shots: nat, submit: (B, nat) -> J): (jobs: seq<J>)
    ensures |jobs| == |batches| && forall i :: 0 <= i < |batches| ==> jobs[i] == submit(batches[i], shots)
  {
    seq(|batches|, i requires 0 <= i < |batches| => submit(batches[i], shots))
  }

  /** circuits2jobs: batch the circuits and submit one job per chunk, in chunk order.
      Submission (assemble and backend.run) is the opaque function `submit`. */
  method CircuitsToJobs<C, J>(backend: Backend, circuits: seq<C>, shots: nat, submit: (seq<C>, nat) -> J)
    returns (jobs: seq<J>)
    requires ChunkingTerminates(|circuits|, MaxCircs(backend, |circuits|))
    ensures jobs == SubmitEach(Chunks(circuits, MaxCircs(backend, |circuits|)), shots, submit)
    ensures IsAer(backend) ==> jobs == [submit(circuits, shots)]
  {
    var maxCircs: int;
    if IsAer(backend) {
      maxCircs := |circuits|;
    } else if backend.maxExperiments.Some? {
      maxCircs := backend.maxExperiments.value;
    } else {
      maxCircs := 300;
    }
    var chunked := ChunkCircuits(circuits, maxCircs);
    jobs := SubmitEach(chunked, shots, submit);
  }
}
