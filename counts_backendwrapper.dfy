/** The counts pipeline of CountsBackend: one measured circuit per basis (circ2circuits),
    batching and submission (circuits2jobs, in BackendWrappers), and the positional plumbing that
    takes the jobs' results back onto the bases (jobs2counts); run composes the three. Compilation
    for the device is the opaque function `transpile`; what the device reports for a circuit is
    the opaque function `outcome`. */
module CountsPipeline {
  import opened Failures
  import opened PyStrings
  import opened Circuits
  import opened PauliBases
  import opened BackendWrappers

  /** What job.result().get_counts() gives: one table for a single experiment, a list otherwise. */
  datatype JobCounts = OneExperiment(table: Counts) | Experiments(tables: seq<Counts>)

  /** What jobs2counts returns: the flattened tables (bases=None) or the bases it annotated. */
  datatype CountsOutput = RawResults(tables: seq<Counts>) | AnnotatedBases(bases: seq<PauliBasis>)

  function Tables(j: JobCounts): seq<Counts> {
    match j
    case OneExperiment(t) => [t]
    case Experiments(ts) => ts
  }

  /** The results of all jobs in job order, with list-valued results spliced in. */
  function Flatten(jobs: seq<JobCounts>): seq<Counts> {
    if jobs == [] then [] else Tables(jobs[0]) + Flatten(jobs[1..])
  }

  lemma {:induction false} FlattenAppend(a: seq<JobCounts>, b: seq<JobCounts>)
    ensures Flatten(a + b) == Flatten(a) + Flatten(b)
  {
    if a == [] {
      assert a + b == b;
    } else {
      assert (a + b)[0] == a[0];
      assert (a + b)[1..] == a[1..] + b;
      calc {
        Flatten(a + b);
        Tables(a[0]) + Flatten(a[1..] + b);
        { FlattenAppend(a[1..], b); }
        Tables(a[0]) + (Flatten(a[1..]) + Flatten(b));
        { ConcatAssociative(Tables(a[0]), Flatten(a[1..]), Flatten(b)); }
        Flatten(a) + Flatten(b);
      }
    }
  }

  function Min(a: nat, b: nat): nat {
    if a < b then a else b
  }

  /** No later position below n holds the same basis object, so the assignment at i is the one
      that survives (zip assigns in order and a repeated object keeps the last). */
  predicate LastOccurrence(bases: seq<PauliBasis>, i: nat, n: nat)
    requires i < n <= |bases|
  {
    forall k :: i < k < n ==> bases[k] != bases[i]
  }

  /** Some position below n holds the basis object b. */
  predicate Among(bases: seq<PauliBasis>, b: PauliBasis, n: nat)
    requires n <= |bases|
  {
    exists k :: 0 <= k < n && bases[k] == b
  }

  /** The results the object at position k holds after the first n steps of the zip loop, when
      it first held before[k]: the table of the last step below n that reached the same object. */
  function HeldAfter(bases: seq<PauliBasis>, results: seq<Counts>, before: seq<Option<Counts>>,
                     n: nat, k: nat): Option<Counts>
    requires n <= |bases| && n <= |results| && k < |bases| == |before|
  {
    if n == 0 then before[k]
    else if bases[n - 1] == bases[k] then Some(results[n - 1])
    else HeldAfter(bases, results, before, n - 1, k)
  }

  /** The object at a last occurrence holds that occurrence's table. */
  lemma {:induction false} HeldAfterLast(bases: seq<PauliBasis>, results: seq<Counts>, before: seq<Option<Counts>>,
                                        n: nat, i: nat)
    requires i < n <= |bases| && n <= |results| && |bases| == |before| && LastOccurrence(bases, i, n)
    ensures HeldAfter(bases, results, before, n, i) == Some(results[i])
  {
    if i < n - 1 {
      HeldAfterLast(bases, results, before, n - 1, i);
    }
  }

  /** An object the loop never reached holds what it held before. */
  lemma {:induction false} HeldAfterUnreached(bases: seq<PauliBasis>, results: seq<Counts>, before: seq<Option<Counts>>,
                                             n: nat, k: nat)
    requires n <= |bases| && n <= |results| && k < |bases| == |before| && !Among(bases, bases[k], n)
    ensures HeldAfter(bases, results, before, n, k) == before[k]
  {
    if n > 0 {
      HeldAfterUnreached(bases, results, before, n - 1, k);
    }
  }

  function BasesFrame(bases: Option<seq<PauliBasis>>): set<PauliBasis> {
    if bases.Some? then set b | b in bases.value else {}
  }

  /** The tables of the jobs' results, in order, flattened: jobs2counts's first loop and the
      generator after it. */
  method CollectResults(jobs: seq<JobCounts>) returns (results: seq<Counts>)
    ensures results == Flatten(jobs)
  {
    results := [];
    for i := 0 to |jobs|
      invariant results == Flatten(jobs[..i])
    {
      assert jobs[..i + 1] == jobs[..i] + [jobs[i]];
      FlattenAppend(jobs[..i], [jobs[i]]);
      results := results + Tables(jobs[i]);
    }
    assert jobs[..|jobs|] == jobs;
  }

  /** The zip loop of jobs2counts: results[i] goes to bases[i] while both last; a basis object
      that occurs twice keeps the later assignment; bases beyond the results keep theirs. */
  method AssignResults(bs: seq<PauliBasis>, results: seq<Counts>)
    modifies bs`res
    ensures forall b | b in bs :: b.basis == old(b.basis) && b.active == old(b.active)
    ensures forall i | 0 <= i < Min(|bs|, |results|) && LastOccurrence(bs, i, Min(|bs|, |results|)) ::
      bs[i].res == Some(results[i])
    ensures forall b | b in bs && !Among(bs, b, Min(|bs|, |results|)) :: b.res == old(b.res)
  {
    var n := Min(|bs|, |results|);
    ghost var before := seq(|bs|, k requires 0 <= k < |bs| reads bs => bs[k].res);
    for i := 0 to n
      invariant forall k | 0 <= k < |bs| :: bs[k].res == HeldAfter(bs, results, before, i, k)
    {
      bs[i].SetResults(results[i]);
    }
    forall i | 0 <= i < n && LastOccurrence(bs, i, n)
      ensures bs[i].res == Some(results[i])
    {
      HeldAfterLast(bs, results, before, n, i);
    }
    forall k | 0 <= k < |bs| && !Among(bs, bs[k], n)
      ensures bs[k].res == old(bs[k].res)
    {
      HeldAfterUnreached(bs, results, before, n, k);
    }
  }

  /** jobs2counts: IndexError on an empty job list (jobs[0] is inspected first); otherwise the
      results flattened in job order, returned as they are when there are no bases, or assigned
      to the bases by position (zip stops at the shorter) with the same bases returned. Waiting
      for the jobs and looking them up by ID are not modelled: each job is its get_counts(). */
  method JobsToCounts(jobs: seq<JobCounts>, bases: Option<seq<PauliBasis>>) returns (r: Result<CountsOutput>)
    modifies BasesFrame(bases)`res
    ensures jobs == [] ==> r == Failure(IndexError)
    ensures jobs != [] && bases.None? ==> r == Success(RawResults(Flatten(jobs)))
    ensures jobs != [] && bases.Some? ==> r == Success(AnnotatedBases(bases.value))
    ensures forall b | b in BasesFrame(bases) :: b.basis == old(b.basis) && b.active == old(b.active)
    ensures jobs == [] ==> forall b | b in BasesFrame(bases) :: b.res == old(b.res)
    ensures jobs != [] && bases.Some? ==>
      var bs, n := bases.value, Min(|bases.value|, |Flatten(jobs)|);
      (forall i | 0 <= i < n && LastOccurrence(bs, i, n) :: bs[i].res == Some(Flatten(jobs)[i])) &&
      (forall b | b in bs && !Among(bs, b, n) :: b.res == old(b.res))
  {
    if |jobs| == 0 {
      return Failure(IndexError);
    }
    var results := CollectResults(jobs);
    if bases.None? {
      return Success(RawResults(results));
    }
    AssignResults(bases.value, results);
    return Success(AnnotatedBases(bases.value));
  }

  /** A circuit state after circ2circuits gave it a classical register (one bit per qubit) if it
      had none. */
  function Registered(st: CircuitState): CircuitState {
    if st.numClbits == 0 then st.(numClbits := st.numQubits) else st
  }

  /** One pass of circ2circuits's loop: the basis applied to a fresh copy of the compiled
      circuit, and the copy compiled again. */
  method BasisCircuit(basis: PauliBasis, base: CircuitState, transpile: CircuitState -> CircuitState)
    returns (r: Result<CircuitState>)
    requires basis.Valid()
    modifies basis`active
    ensures basis.Valid() && basis.active == Some(ActiveIndices(basis.basis))
    ensures r.Success? <==> KnownSymbols(basis.basis)
    ensures r.Success? ==> r.value == transpile(AfterApply(base, basis.basis, false))
    ensures r.Failure? ==> Some(r.error) == ApplyError(basis.basis)
  {
    var copy := new Circuit(base);
    var applied := basis.Apply(copy, false);
    if applied.Failure? {
      return Failure(applied.error);
    }
    return Success(transpile(copy.State()));
  }

  /** The loop of circ2circuits: every basis in order applied to its own copy of the compiled
      circuit base, each result compiled; the first KeyError ends it. */
  method ApplyBases(bases: seq<PauliBasis>, base: CircuitState, transpile: CircuitState -> CircuitState)
    returns (r: Result<seq<CircuitState>>)
    requires forall b | b in bases :: b.Valid()
    modifies bases`active
    ensures forall b | b in bases :: b.Valid()
    ensures r.Success? <==> forall k :: 0 <= k < |bases| ==> KnownSymbols(bases[k].basis)
    ensures r.Success? ==> forall b | b in bases :: b.active == Some(ActiveIndices(b.basis))
    ensures r.Success? ==> |r.value| == |bases| && forall k :: 0 <= k < |bases| ==>
      r.value[k] == transpile(AfterApply(base, bases[k].basis, false))
    ensures r.Failure? ==>
      exists k :: 0 <= k < |bases| && Some(r.error) == ApplyError(bases[k].basis) &&
                  forall j :: 0 <= j < k ==> KnownSymbols(bases[j].basis)
  {
    var out: seq<CircuitState> := [];
    for k := 0 to |bases|
      invariant forall b | b in bases :: b.Valid()
      invariant forall j :: 0 <= j < k ==> KnownSymbols(bases[j].basis)
      invariant forall j :: 0 <= j < k ==> bases[j].active == Some(ActiveIndices(bases[j].basis))
      invariant |out| == k
      invariant forall j :: 0 <= j < k ==> out[j] == transpile(AfterApply(base, bases[j].basis, false))
    {
      var next := BasisCircuit(bases[k], base, transpile);
      if next.Failure? {
        return Failure(next.error);
      }
      out := out + [next.value];
    }
    return Success(out);
  }

  /** circ2circuits: registers the circuit, compiles it, then for each basis in order applies the
      basis to an independent copy and compiles the result. A KeyError from some basis ends it. */
  method Circ2Circuits(circuit: Circuit, bases: seq<PauliBasis>, transpile: CircuitState -> CircuitState)
    returns (r: Result<seq<CircuitState>>)
    requires forall b | b in bases :: b.Valid()
    modifies circuit`numClbits, bases`active
    ensures circuit.State() == Registered(old(circuit.State()))
    ensures forall b | b in bases :: b.Valid() && b.basis == old(b.basis) && b.res == old(b.res)
    ensures r.Success? <==> forall k :: 0 <= k < |bases| ==> KnownSymbols(bases[k].basis)
    ensures r.Success? ==> |r.value| == |bases|
    ensures r.Success? ==> forall b | b in bases :: b.active == Some(ActiveIndices(b.basis))
    ensures r.Success? ==> forall k :: 0 <= k < |bases| ==>
      r.value[k] == transpile(AfterApply(transpile(circuit.State()), bases[k].basis, false))
    ensures r.Failure? ==>
      exists k :: 0 <= k < |bases| && Some(r.error) == ApplyError(bases[k].basis) &&
                  forall j :: 0 <= j < k ==> KnownSymbols(bases[j].basis)
  {
    if circuit.numClbits == 0 {
      circuit.AddClassicalRegister();
    }
    r := ApplyBases(bases, transpile(circuit.State()), transpile);
  }

  /** The `bases` argument of run: 'def', None, or bases of the caller's. */
  datatype BasesArg = DefaultBases | NoBases | GivenBases(given: seq<PauliBasis>)

  function Repeat(c: char, n: nat): (r: string)
    ensures |r| == n && forall i :: 0 <= i < n ==> r[i] == c
  {
    seq(n, _ => c)
  }

  /** The basis run builds when the caller names none: all Z for 'def', all I for None. */
  function DefaultBasis(arg: BasesArg, n: nat): string
    requires !arg.GivenBases?
  {
    if arg.DefaultBases? then Repeat('Z', n) else Repeat('I', n)
  }

  function NumBases(arg: BasesArg): nat {
    if arg.GivenBases? then |arg.given| else 1
  }

  function ArgFrame(arg: BasesArg): set<PauliBasis> {
    if arg.GivenBases? then set b | b in arg.given else {}
  }

  lemma {:induction false} NoRotationsOnIZ(s: string)
    requires forall i :: 0 <= i < |s| ==> s[i] == 'I' || s[i] == 'Z'
    ensures RotationGates(s) == []
  {
    if s != [] {
      NoRotationsOnIZ(s[..|s| - 1]);
    }
  }

  /** The default bases are already upper case, hold only known symbols and rotate nothing. */
  lemma DefaultBasesPlain(c: char, n: nat)
    requires c == 'Z' || c == 'I'
    ensures Upper(Repeat(c, n)) == Repeat(c, n)
    ensures KnownSymbols(Repeat(c, n))
    ensures RotationGates(Repeat(c, n)) == []
  {
    NoRotationsOnIZ(Repeat(c, n));
  }

  /** The 'def' basis measures every qubit q, into clbit nc - q - 1. */
  lemma DefaultBasisMeasuresAll(n: nat, nc: nat, q: nat, c: int)
    ensures Measure(q, c) in Measurements(ActiveIndices(Repeat('Z', n)), nc) <==> q < n && c == nc - q - 1
  {
    MeasuresExactlyActive(Repeat('Z', n), nc, q, c);
  }

  lemma {:induction false} NoActiveOnI(s: string)
    requires forall i :: 0 <= i < |s| ==> s[i] == 'I'
    ensures ActiveIndices(s) == []
  {
    if s != [] {
      NoActiveOnI(s[..|s| - 1]);
    }
  }

  /** The basis used for None measures nothing. */
  lemma NoBasisMeasuresNothing(n: nat, nc: nat)
    ensures Measurements(ActiveIndices(Repeat('I', n)), nc) == []
  {
    NoActiveOnI(Repeat('I', n));
  }

  /** A job on an ideal device: one table per circuit, in submission order; a job of one
      circuit reports a single table rather than a list. */
  function IdealJob(chunk: seq<CircuitState>, shots: nat, outcome: (CircuitState, nat) -> Counts): JobCounts {
    var ts := SubmitEach(chunk, shots, outcome);
    if |ts| == 1 then OneExperiment(ts[0]) else Experiments(ts)
  }

  lemma IdealTables(ch: seq<CircuitState>, shots: nat, outcome: (CircuitState, nat) -> Counts)
    ensures Tables(IdealJob(ch, shots, outcome)) == SubmitEach(ch, shots, outcome)
  {
  }

  lemma OutcomesAppend(a: seq<CircuitState>, b: seq<CircuitState>, shots: nat,
                       outcome: (CircuitState, nat) -> Counts)
    ensures SubmitEach(a + b, shots, outcome) == SubmitEach(a, shots, outcome) + SubmitEach(b, shots, outcome)
  {
  }

  lemma FlattenOne(j: JobCounts)
    ensures Flatten([j]) == Tables(j)
  {
    assert [j][..0] == [];
  }

  /** With an ideal device, the flattened results of the jobs for any chunking are the outcomes of
      the concatenated circuits, position by position. */
  lemma {:induction false} FlattenIdealJobs(chunks: seq<seq<CircuitState>>, shots: nat,
                                            outcome: (CircuitState, nat) -> Counts,
                                            submit: (seq<CircuitState>, nat) -> JobCounts)
    requires forall ch :: submit(ch, shots) == IdealJob(ch, shots, outcome)
    ensures Flatten(SubmitEach(chunks, shots, submit)) == SubmitEach(Concat(chunks), shots, outcome)
  {
    if chunks == [] {
      assert Concat(chunks) == [];
    } else {
      var jobs := SubmitEach(chunks, shots, submit);
      var rest := SubmitEach(chunks[1..], shots, submit);
      assert jobs == [jobs[0]] + rest;
      FlattenIdealJobs(chunks[1..], shots, outcome, submit);
      FlattenAppend([jobs[0]], rest);
      FlattenOne(jobs[0]);
      IdealTables(chunks[0], shots, outcome);
      OutcomesAppend(chunks[0], Concat(chunks[1..]), shots, outcome);
    }
  }

  /** On an ideal device the submitted jobs are never empty and their flattened results are the
      outcomes of the circuits, in order, however circuits2jobs batched them. */
  lemma IdealJobsResults(backend: Backend, circuits: seq<CircuitState>, shots: nat,
                         outcome: (CircuitState, nat) -> Counts,
                         submit: (seq<CircuitState>, nat) -> JobCounts)
    requires ChunkingTerminates(|circuits|, MaxCircs(backend, |circuits|))
    requires forall ch :: submit(ch, shots) == IdealJob(ch, shots, outcome)
    ensures SubmitEach(Chunks(circuits, MaxCircs(backend, |circuits|)), shots, submit) != []
    ensures Flatten(SubmitEach(Chunks(circuits, MaxCircs(backend, |circuits|)), shots, submit)) ==
      SubmitEach(circuits, shots, outcome)
  {
    var m := MaxCircs(backend, |circuits|);
    ChunksConcat(circuits, m);
    ChunksSizes(circuits, m);
    FlattenIdealJobs(Chunks(circuits, m), shots, outcome, submit);
  }

  /** The ideal outcome of the circuit st measured in a basis: st compiled, the basis applied,
      compiled again. */
  function Expected(st: CircuitState, basis: string, shots: nat,
                    transpile: CircuitState -> CircuitState, outcome: (CircuitState, nat) -> Counts): Counts {
    outcome(transpile(AfterApply(transpile(st), basis, false)), shots)
  }

  /** Each basis object, at its last position, holds the ideal outcome of the circuit st
      measured in it. */
  predicate HoldOutcomes(bs: seq<PauliBasis>, st: CircuitState, shots: nat,
                         transpile: CircuitState -> CircuitState, outcome: (CircuitState, nat) -> Counts)
    reads set b | b in bs
  {
    forall k {:trigger bs[k].res} | 0 <= k < |bs| && LastOccurrence(bs, k, |bs|) ::
      bs[k].res == Some(Expected(st, bs[k].basis, shots, transpile, outcome))
  }

  /** The pipeline of run once the bases are fixed. */
  method RunBases(circuit: Circuit, bases: seq<PauliBasis>, shots: nat, backend: Backend,
                  transpile: CircuitState -> CircuitState, outcome: (CircuitState, nat) -> Counts)
    returns (r: Result<CountsOutput>)
    requires forall b | b in bases :: b.Valid()
    requires ChunkingTerminates(|bases|, MaxCircs(backend, |bases|))
    modifies circuit`numClbits, bases`active, bases`res
    ensures circuit.State() == Registered(old(circuit.State()))
    ensures forall b | b in bases :: b.Valid() && b.basis == old(b.basis)
    ensures r.Success? <==> forall k :: 0 <= k < |bases| ==> KnownSymbols(bases[k].basis)
    ensures r.Failure? ==> r.error.KeyError?
    ensures r.Failure? ==> forall b | b in bases :: b.res == old(b.res)
    ensures r.Success? ==> r.value == AnnotatedBases(bases)
    ensures r.Success? ==> forall b | b in bases :: b.active == Some(ActiveIndices(b.basis))
    ensures r.Success? ==> HoldOutcomes(bases, circuit.State(), shots, transpile, outcome)
  {
    var circuits :- Circ2Circuits(circuit, bases, transpile);
    var submit := (ch: seq<CircuitState>, s: nat) => IdealJob(ch, s, outcome);
    var jobs := CircuitsToJobs(backend, circuits, shots, submit);
    IdealJobsResults(backend, circuits, shots, outcome, submit);
    r := JobsToCounts(jobs, Some(bases));
  }

  /** run on one circuit: picks the default basis for 'def' and None, then circ2circuits,
      circuits2jobs and jobs2counts. With an ideal device every basis (each object at its last
      position) ends up with the outcome of its own measured circuit; it fails only with the
      KeyError of a basis holding an unknown symbol. */
  method Run(circuit: Circuit, arg: BasesArg, shots: nat, backend: Backend,
             transpile: CircuitState -> CircuitState, outcome: (CircuitState, nat) -> Counts)
    returns (r: Result<CountsOutput>)
    requires forall b | b in ArgFrame(arg) :: b.Valid()
    requires ChunkingTerminates(NumBases(arg), MaxCircs(backend, NumBases(arg)))
    modifies circuit`numClbits, ArgFrame(arg)`active, ArgFrame(arg)`res
    ensures circuit.State() == Registered(old(circuit.State()))
    ensures forall b | b in ArgFrame(arg) :: b.Valid() && b.basis == old(b.basis)
    ensures r.Success? <==> forall b | b in ArgFrame(arg) :: KnownSymbols(b.basis)
    ensures r.Failure? ==> r.error.KeyError?
    ensures r.Failure? ==> forall b | b in ArgFrame(arg) :: b.res == old(b.res)
    ensures r.Success? ==> r.value.AnnotatedBases? && |r.value.bases| == NumBases(arg)
    ensures r.Success? ==> forall b | b in r.value.bases :: b.active == Some(ActiveIndices(b.basis))
    ensures r.Success? && arg.GivenBases? ==> r.value.bases == arg.given
    ensures r.Success? && !arg.GivenBases? ==>
      fresh(r.value.bases[0]) && r.value.bases[0].basis == DefaultBasis(arg, circuit.numQubits)
    ensures r.Success? ==> HoldOutcomes(r.value.bases, circuit.State(), shots, transpile, outcome)
  {
    var bases := BasesFor(arg, circuit.numQubits);
    r := RunBases(circuit, bases, shots, backend, transpile, outcome);
  }

  /** The bases run works with: the caller's, or one fresh default basis over all qubits. */
  method BasesFor(arg: BasesArg, n: nat) returns (bases: seq<PauliBasis>)
    ensures arg.GivenBases? ==> bases == arg.given
    ensures !arg.GivenBases? ==> |bases| == 1 && fresh(bases[0]) && bases[0].Valid()
    ensures !arg.GivenBases? ==> bases[0].basis == DefaultBasis(arg, n) && KnownSymbols(bases[0].basis)
  {
    if arg.GivenBases? {
      return arg.given;
    }
    var c := if arg.DefaultBases? then 'Z' else 'I';
    DefaultBasesPlain(c, n);
    var b := new PauliBasis(Repeat(c, n));
    bases := [b];
  }

  /** Registering a circuit twice is registering it once. */
  lemma RegisteredIdempotent(st: CircuitState)
    ensures Registered(Registered(st)) == Registered(st)
  { }

  /** The states of a list of circuits, position by position. */
  function States(cs: seq<Circuit>): (r: seq<CircuitState>)
    reads cs
    ensures |r| == |cs| && forall j :: 0 <= j < |cs| ==> r[j] == cs[j].State()
  {
    seq(|cs|, j requires 0 <= j < |cs| reads cs => cs[j].State())
  }

  /** Partway through run on a list: circuits before k are registered, and every circuit is
      either untouched or registered (a circuit listed twice may have been reached already). */
  predicate RegisteredUpTo(states: seq<CircuitState>, orig: seq<CircuitState>, k: nat)
    requires |orig| == |states|
  {
    (forall j :: 0 <= j < k && j < |states| ==> states[j] == Registered(orig[j])) &&
    forall j :: 0 <= j < |states| ==> states[j] == orig[j] || states[j] == Registered(orig[j])
  }

  /** Registering circuit k, and nothing else, moves RegisteredUpTo from k to k + 1; positions
      holding the same circuit as k share its state. */
  lemma RegisterStep(cs: seq<Circuit>, before: seq<CircuitState>, after: seq<CircuitState>,
                     orig: seq<CircuitState>, k: nat)
    requires |orig| == |cs| == |before| == |after| && k < |cs| && RegisteredUpTo(before, orig, k)
    requires after[k] == Registered(before[k])
    requires forall j | 0 <= j < |cs| && cs[j] == cs[k] :: before[j] == before[k] && after[j] == after[k]
    requires forall j | 0 <= j < |cs| && cs[j] != cs[k] :: after[j] == before[j]
    ensures RegisteredUpTo(after, orig, k + 1)
  {
    forall j | 0 <= j < |cs| && cs[j] == cs[k]
      ensures after[j] == Registered(orig[j])
    {
      RegisteredIdempotent(orig[j]);
    }
  }

  /** run on a list of circuits: run on each in order with the same `bases` argument. It fails,
      with a KeyError, only when there is a circuit and a caller's basis holds an unknown symbol;
      the first circuit raises it, so only that circuit has been registered and no basis's
      results have changed. 'def' and None never fail. On success every circuit is registered. For 'def' and None,
      answer k is one fresh default basis holding circuit k's results. Caller's bases are shared
      instead: every element of the answer is that same list of bases, and the results it holds
      are those of the last circuit. */
  method RunMany(circuits: seq<Circuit>, arg: BasesArg, shots: nat, backend: Backend,
                 transpile: CircuitState -> CircuitState, outcome: (CircuitState, nat) -> Counts)
    returns (r: Result<seq<CountsOutput>>)
    requires forall b | b in ArgFrame(arg) :: b.Valid()
    requires ChunkingTerminates(NumBases(arg), MaxCircs(backend, NumBases(arg)))
    modifies circuits`numClbits, ArgFrame(arg)`active, ArgFrame(arg)`res
    ensures r.Success? <==> |circuits| == 0 || forall b | b in ArgFrame(arg) :: KnownSymbols(b.basis)
    ensures r.Success? ==> forall k :: 0 <= k < |circuits| ==>
      circuits[k].State() == Registered(old(circuits[k].State()))
    ensures r.Success? ==> |r.value| == |circuits| && forall k :: 0 <= k < |circuits| ==> r.value[k].AnnotatedBases?
    ensures r.Success? && arg.GivenBases? ==> forall k :: 0 <= k < |circuits| ==> r.value[k] == AnnotatedBases(arg.given)
    ensures r.Success? && !arg.GivenBases? ==> forall k :: 0 <= k < |circuits| ==>
      DefaultAnswer(r.value[k], arg, circuits[k].numQubits, circuits[k].State(), shots, transpile, outcome)
    ensures r.Failure? ==> r.error.KeyError?
    ensures r.Failure? ==> |circuits| > 0 && circuits[0].State() == Registered(old(circuits[0].State()))
    ensures r.Failure? ==> forall j | 0 <= j < |circuits| && circuits[j] != circuits[0] ::
      circuits[j].State() == old(circuits[j].State())
    ensures r.Failure? ==> forall b | b in ArgFrame(arg) :: b.res == old(b.res)
    ensures forall b | b in ArgFrame(arg) :: b.Valid() && b.basis == old(b.basis)
    ensures r.Success? && arg.GivenBases? && |circuits| > 0 ==>
      HoldOutcomes(arg.given, circuits[|circuits| - 1].State(), shots, transpile, outcome)
  {
    if arg.GivenBases? {
      r := RunManyGiven(circuits, arg, shots, backend, transpile, outcome);
    } else {
      r := RunManyDefault(circuits, arg, shots, backend, transpile, outcome);
    }
  }

  /** run on one circuit with the caller's bases, as RunManyGiven's loop sees it. */
  method RunGiven(circuits: seq<Circuit>, k: nat, arg: BasesArg, shots: nat, backend: Backend,
                  transpile: CircuitState -> CircuitState, outcome: (CircuitState, nat) -> Counts,
                  ghost orig: seq<CircuitState>)
    returns (r: Result<CountsOutput>)
    requires arg.GivenBases? && forall b | b in arg.given :: b.Valid()
    requires ChunkingTerminates(|arg.given|, MaxCircs(backend, |arg.given|))
    requires k < |circuits| == |orig| && RegisteredUpTo(States(circuits), orig, k)
    modifies circuits`numClbits, ArgFrame(arg)`active, ArgFrame(arg)`res
    ensures RegisteredUpTo(States(circuits), orig, k + 1)
    ensures forall b | b in arg.given :: b.Valid() && b.basis == old(b.basis)
    ensures r.Success? <==> forall b | b in arg.given :: KnownSymbols(b.basis)
    ensures r.Failure? ==> forall b | b in arg.given :: b.res == old(b.res)
    ensures r.Success? ==> r.value == AnnotatedBases(arg.given)
    ensures r.Success? ==> HoldOutcomes(arg.given, Registered(orig[k]), shots, transpile, outcome)
    ensures r.Failure? ==> r.error.KeyError?
  {
    ghost var before := States(circuits);
    r := Run(circuits[k], arg, shots, backend, transpile, outcome);
    RegisterStep(circuits, before, States(circuits), orig, k);
  }

  /** RunMany with the caller's bases: one shared list, holding the last circuit's results. */
  method RunManyGiven(circuits: seq<Circuit>, arg: BasesArg, shots: nat, backend: Backend,
                      transpile: CircuitState -> CircuitState, outcome: (CircuitState, nat) -> Counts)
    returns (r: Result<seq<CountsOutput>>)
    requires arg.GivenBases? && forall b | b in arg.given :: b.Valid()
    requires ChunkingTerminates(|arg.given|, MaxCircs(backend, |arg.given|))
    modifies circuits`numClbits, ArgFrame(arg)`active, ArgFrame(arg)`res
    ensures r.Success? ==> forall k :: 0 <= k < |circuits| ==>
      circuits[k].State() == Registered(old(circuits[k].State()))
    ensures r.Success? <==> |circuits| == 0 || forall b | b in arg.given :: KnownSymbols(b.basis)
    ensures r.Success? ==> |r.value| == |circuits| && forall k :: 0 <= k < |circuits| ==> r.value[k] == AnnotatedBases(arg.given)
    ensures r.Failure? ==> r.error.KeyError?
    ensures r.Failure? ==> |circuits| > 0 && circuits[0].State() == Registered(old(circuits[0].State()))
    ensures r.Failure? ==> forall j | 0 <= j < |circuits| && circuits[j] != circuits[0] ::
      circuits[j].State() == old(circuits[j].State())
    ensures r.Failure? ==> forall b | b in arg.given :: b.res == old(b.res)
    ensures forall b | b in arg.given :: b.Valid() && b.basis == old(b.basis)
    ensures r.Success? && |circuits| > 0 ==>
      HoldOutcomes(arg.given, circuits[|circuits| - 1].State(), shots, transpile, outcome)
  {
    ghost var orig := States(circuits);
    r := RunEachGiven(circuits, arg, shots, backend, transpile, outcome, orig);
  }

  /** The loop of RunManyGiven: each circuit run in order with the caller's bases. */
  method RunEachGiven(circuits: seq<Circuit>, arg: BasesArg, shots: nat, backend: Backend,
                      transpile: CircuitState -> CircuitState, outcome: (CircuitState, nat) -> Counts,
                      ghost orig: seq<CircuitState>)
    returns (r: Result<seq<CountsOutput>>)
    requires arg.GivenBases? && forall b | b in arg.given :: b.Valid()
    requires ChunkingTerminates(|arg.given|, MaxCircs(backend, |arg.given|))
    requires |circuits| == |orig| && RegisteredUpTo(States(circuits), orig, 0)
    modifies circuits`numClbits, ArgFrame(arg)`active, ArgFrame(arg)`res
    ensures forall b | b in arg.given :: b.Valid() && b.basis == old(b.basis)
    ensures r.Success? <==> |circuits| == 0 || forall b | b in arg.given :: KnownSymbols(b.basis)
    ensures r.Success? ==> RegisteredUpTo(States(circuits), orig, |circuits|)
    ensures r.Success? ==> |r.value| == |circuits| && forall k :: 0 <= k < |circuits| ==> r.value[k] == AnnotatedBases(arg.given)
    ensures r.Success? && |circuits| > 0 ==>
      HoldOutcomes(arg.given, Registered(orig[|circuits| - 1]), shots, transpile, outcome)
    ensures r.Failure? ==> r.error.KeyError?
    ensures r.Failure? ==> |circuits| > 0 && circuits[0].State() == Registered(old(circuits[0].State()))
    ensures r.Failure? ==> forall j | 0 <= j < |circuits| && circuits[j] != circuits[0] ::
      circuits[j].State() == old(circuits[j].State())
    ensures r.Failure? ==> forall b | b in arg.given :: b.res == old(b.res)
  {
    if |circuits| == 0 {
      return Success([]);
    }
    ghost var before := States(circuits);
    var first :- Run(circuits[0], arg, shots, backend, transpile, outcome);
    RegisterStep(circuits, before, States(circuits), orig, 0);
    var rest := RunRestGiven(circuits, arg, shots, backend, transpile, outcome, orig);
    return Success([first] + rest);
  }

  /** The rest of RunEachGiven's loop, once circuit 0 ran with every given basis known: the
      circuits after it, in order; none of them can fail. */
  method RunRestGiven(circuits: seq<Circuit>, arg: BasesArg, shots: nat, backend: Backend,
                      transpile: CircuitState -> CircuitState, outcome: (CircuitState, nat) -> Counts,
                      ghost orig: seq<CircuitState>)
    returns (outs: seq<CountsOutput>)
    requires arg.GivenBases? && forall b | b in arg.given :: b.Valid() && KnownSymbols(b.basis)
    requires ChunkingTerminates(|arg.given|, MaxCircs(backend, |arg.given|))
    requires 0 < |circuits| == |orig| && RegisteredUpTo(States(circuits), orig, 1)
    requires HoldOutcomes(arg.given, Registered(orig[0]), shots, transpile, outcome)
    modifies circuits`numClbits, ArgFrame(arg)`active, ArgFrame(arg)`res
    ensures forall b | b in arg.given :: b.Valid() && b.basis == old(b.basis)
    ensures RegisteredUpTo(States(circuits), orig, |circuits|)
    ensures |outs| == |circuits| - 1 && forall k :: 0 <= k < |outs| ==> outs[k] == AnnotatedBases(arg.given)
    ensures HoldOutcomes(arg.given, Registered(orig[|circuits| - 1]), shots, transpile, outcome)
  {
    outs := [];
    if |circuits| == 1 {
      return;
    }
    // The last circuit is run after the loop: its outcomes are the ones the bases keep.
    var n := |circuits| - 1;
    for k := 1 to n
      invariant forall b | b in arg.given :: b.Valid() && b.basis == old(b.basis) && KnownSymbols(b.basis)
      invariant RegisteredUpTo(States(circuits), orig, k)
      invariant |outs| == k - 1 && forall j :: 0 <= j < k - 1 ==> outs[j] == AnnotatedBases(arg.given)
    {
      var out := RunGiven(circuits, k, arg, shots, backend, transpile, outcome, orig);
      outs := outs + [out.value];
    }
    var last := RunGiven(circuits, n, arg, shots, backend, transpile, outcome, orig);
    outs := outs + [last.value];
  }

  /** One answer of run for 'def' or None: a single default basis for n qubits, holding the
      outcome of the circuit st measured in it. */
  predicate DefaultAnswer(out: CountsOutput, arg: BasesArg, n: nat, st: CircuitState, shots: nat,
                          transpile: CircuitState -> CircuitState, outcome: (CircuitState, nat) -> Counts)
    requires !arg.GivenBases?
    reads if out.AnnotatedBases? then set b | b in out.bases else {}
  {
    out.AnnotatedBases? && |out.bases| == 1 && out.bases[0].basis == DefaultBasis(arg, n) &&
    out.bases[0].res == Some(Expected(st, DefaultBasis(arg, n), shots, transpile, outcome))
  }

  /** DefaultAnswer for each answer so far: answer j is for circuit cs[j], whose state before run
      was sts[j]. */
  predicate AllDefault(outs: seq<CountsOutput>, arg: BasesArg, cs: seq<Circuit>, sts: seq<CircuitState>, shots: nat,
                       transpile: CircuitState -> CircuitState, outcome: (CircuitState, nat) -> Counts)
    requires !arg.GivenBases? && |outs| <= |cs| && |outs| <= |sts|
    reads set j, b | 0 <= j < |outs| && outs[j].AnnotatedBases? && b in outs[j].bases :: b
  {
    forall j :: 0 <= j < |outs| ==> DefaultAnswer(outs[j], arg, cs[j].numQubits, Registered(sts[j]), shots, transpile, outcome)
  }

  lemma AllDefaultAppend(outs: seq<CountsOutput>, out: CountsOutput, arg: BasesArg, cs: seq<Circuit>, sts: seq<CircuitState>,
                         shots: nat, transpile: CircuitState -> CircuitState, outcome: (CircuitState, nat) -> Counts)
    requires !arg.GivenBases? && |outs| < |cs| && |outs| < |sts|
    requires AllDefault(outs, arg, cs, sts, shots, transpile, outcome)
    requires DefaultAnswer(out, arg, cs[|outs|].numQubits, Registered(sts[|outs|]), shots, transpile, outcome)
    ensures AllDefault(outs + [out], arg, cs, sts, shots, transpile, outcome)
  {
    var more := outs + [out];
    forall j | 0 <= j < |more|
      ensures DefaultAnswer(more[j], arg, cs[j].numQubits, Registered(sts[j]), shots, transpile, outcome)
    {
      if j < |outs| { assert more[j] == outs[j]; }
    }
  }

  /** run on one circuit for 'def' or None, as RunManyDefault's loop sees it. */
  method RunDefault(circuits: seq<Circuit>, k: nat, arg: BasesArg, shots: nat, backend: Backend,
                    transpile: CircuitState -> CircuitState, outcome: (CircuitState, nat) -> Counts,
                    ghost orig: seq<CircuitState>, ghost done: seq<CountsOutput>)
    returns (r: Result<CountsOutput>)
    requires !arg.GivenBases? && ChunkingTerminates(1, MaxCircs(backend, 1))
    requires k < |circuits| == |orig| && RegisteredUpTo(States(circuits), orig, k)
    requires |done| == k && AllDefault(done, arg, circuits, orig, shots, transpile, outcome)
    modifies circuits`numClbits
    ensures RegisteredUpTo(States(circuits), orig, k + 1)
    ensures r.Success?
    ensures r.Success? ==>
      DefaultAnswer(r.value, arg, circuits[k].numQubits, Registered(orig[k]), shots, transpile, outcome)
    ensures r.Success? ==> AllDefault(done + [r.value], arg, circuits, orig, shots, transpile, outcome)
    ensures r.Failure? ==> r.error.KeyError?
  {
    ghost var before := States(circuits);
    r := Run(circuits[k], arg, shots, backend, transpile, outcome);
    RegisterStep(circuits, before, States(circuits), orig, k);
    if r.Success? {
      AllDefaultAppend(done, r.value, arg, circuits, orig, shots, transpile, outcome);
    }
  }

  /** RunMany for 'def' and None: a fresh default basis per circuit, holding its own results. */
  method RunManyDefault(circuits: seq<Circuit>, arg: BasesArg, shots: nat, backend: Backend,
                        transpile: CircuitState -> CircuitState, outcome: (CircuitState, nat) -> Counts)
    returns (r: Result<seq<CountsOutput>>)
    requires !arg.GivenBases? && ChunkingTerminates(1, MaxCircs(backend, 1))
    modifies circuits`numClbits
    ensures r.Success?
    ensures r.Success? ==> forall k :: 0 <= k < |circuits| ==>
      circuits[k].State() == Registered(old(circuits[k].State()))
    ensures r.Success? ==> |r.value| == |circuits| && forall k :: 0 <= k < |circuits| ==>
      DefaultAnswer(r.value[k], arg, circuits[k].numQubits, circuits[k].State(), shots, transpile, outcome)
    ensures r.Failure? ==> r.error.KeyError?
  {
    ghost var orig := States(circuits);
    r := RunEachDefault(circuits, arg, shots, backend, transpile, outcome, orig);
  }

  /** The loop of RunManyDefault: each circuit run in order with its own default basis. */
  method RunEachDefault(circuits: seq<Circuit>, arg: BasesArg, shots: nat, backend: Backend,
                        transpile: CircuitState -> CircuitState, outcome: (CircuitState, nat) -> Counts,
                        ghost orig: seq<CircuitState>)
    returns (r: Result<seq<CountsOutput>>)
    requires !arg.GivenBases? && ChunkingTerminates(1, MaxCircs(backend, 1))
    requires |circuits| == |orig| && RegisteredUpTo(States(circuits), orig, 0)
    modifies circuits`numClbits
    ensures r.Success?
    ensures r.Success? ==> RegisteredUpTo(States(circuits), orig, |circuits|)
    ensures r.Success? ==> |r.value| == |circuits| && forall k :: 0 <= k < |circuits| ==>
      DefaultAnswer(r.value[k], arg, circuits[k].numQubits, Registered(orig[k]), shots, transpile, outcome)
    ensures r.Failure? ==> r.error.KeyError?
  {
    var outs: seq<CountsOutput> := [];
    for k := 0 to |circuits|
      invariant RegisteredUpTo(States(circuits), orig, k)
      invariant |outs| == k && AllDefault(outs, arg, circuits, orig, shots, transpile, outcome)
    {
      var out := RunDefault(circuits, k, arg, shots, backend, transpile, outcome, orig, outs);
      outs := outs + [out.value];
    }
    return Success(outs);
  }

}
