/** The estimator script: evaluate_pauli turns one counts table into the expectation value of a
    Pauli string, and the energy loop adds, for every Hamiltonian term, the value from every
    basis that contains the term. */
module Estimator {
  import opened Failures
  import opened Circuits
  import opened PauliBases

  function MinLen(a: string, b: string): nat {
    if |a| < |b| then |a| else |b|
  }

  /** Positions below n where the bit is '1' under a non-I symbol: the sign flips of the zip. */
  function Flips(pauli: string, bits: string, n: nat): nat
    requires n <= MinLen(pauli, bits)
  {
    if n == 0 then 0
    else Flips(pauli, bits, n - 1) + (if bits[n - 1] == '1' && pauli[n - 1] != 'I' then 1 else 0)
  }

  function Parity(k: nat): int {
    if k % 2 == 0 then 1 else -1
  }

  /** The sign evaluate_pauli gives a bit-string: -1 to the number of flips over the common
      prefix of the Pauli string and the key (zip stops at the shorter). */
  function Sign(pauli: string, bits: string): int {
    Parity(Flips(pauli, bits, MinLen(pauli, bits)))
  }

  /** The signed sum of the weights, table order. */
  function SignedSum(pauli: string, results: Counts): int {
    if results == [] then 0
    else
      var last := results[|results| - 1];
      SignedSum(pauli, results[..|results| - 1]) + Sign(pauli, last.0) * last.1
  }

  /** sum(results.values()). */
  function Total(results: Counts): int {
    if results == [] then 0 else Total(results[..|results| - 1]) + results[|results| - 1].1
  }

  /** What evaluate_pauli returns or raises. */
  function Evaluate(pauli: string, results: Counts): Result<real> {
    if Total(results) == 0 then Failure(ZeroDivisionError)
    else Success(SignedSum(pauli, results) as real / Total(results) as real)
  }

  /** evaluate_pauli: for each entry a sign flipped once per '1' under a non-I symbol, the signed
      weights summed, then divided by the total weight. */
  method EvaluatePauli(pauli: string, results: Counts) returns (r: Result<real>)
    ensures r == Evaluate(pauli, results)
  {
    var e := 0;
    var total := 0;
    for k := 0 to |results|
      invariant e == SignedSum(pauli, results[..k])
      invariant total == Total(results[..k])
    {
      var (bitstring, weight) := results[k];
      var sign := 1;
      for j := 0 to MinLen(pauli, bitstring)
        invariant sign == Parity(Flips(pauli, bitstring, j))
      {
        if bitstring[j] == '1' && pauli[j] != 'I' {
          sign := -sign;
        }
      }
      assert results[..k + 1][..k] == results[..k];
      e := e + sign * weight;
      total := total + weight;
    }
    assert results[..|results|] == results;
    if total == 0 {
      return Failure(ZeroDivisionError);
    }
    return Success(e as real / total as real);
  }

  lemma SignIsUnit(pauli: string, bits: string)
    ensures Sign(pauli, bits) == 1 || Sign(pauli, bits) == -1
  {
  }

  lemma {:induction false} SignedSumBounded(pauli: string, results: Counts)
    requires forall k :: 0 <= k < |results| ==> results[k].1 >= 0
    ensures -Total(results) <= SignedSum(pauli, results) <= Total(results)
  {
    if results != [] {
      SignedSumBounded(pauli, results[..|results| - 1]);
      SignIsUnit(pauli, results[|results| - 1].0);
    }
  }

  /** With non-negative weights and a positive total, the value is an expectation in [-1, 1]. */
  lemma EvaluateBounded(pauli: string, results: Counts)
    requires forall k :: 0 <= k < |results| ==> results[k].1 >= 0
    requires Total(results) > 0
    ensures Evaluate(pauli, results).Success?
    ensures -1.0 <= Evaluate(pauli, results).value <= 1.0
  {
    SignedSumBounded(pauli, results);
    var s, t := SignedSum(pauli, results) as real, Total(results) as real;
    assert -t <= s <= t;
    DivideWithin(s, t);
  }

  lemma DivideWithin(s: real, t: real)
    requires t > 0.0 && -t <= s <= t
    ensures -1.0 <= s / t <= 1.0
  {
    var q := s / t;
    assert q * t == s;
    assert (q - 1.0) * t <= 0.0;
    assert (q + 1.0) * t >= 0.0;
  }

  lemma {:induction false} NoFlips(pauli: string, bits: string, n: nat)
    requires n <= MinLen(pauli, bits)
    requires forall i :: 0 <= i < n ==> bits[i] != '1' || pauli[i] == 'I'
    ensures Flips(pauli, bits, n) == 0
  {
    if n > 0 {
      NoFlips(pauli, bits, n - 1);
    }
  }

  lemma {:induction false} AllPositive(pauli: string, results: Counts)
    requires forall k :: 0 <= k < |results| ==> Sign(pauli, results[k].0) == 1
    ensures SignedSum(pauli, results) == Total(results)
  {
    if results != [] {
      AllPositive(pauli, results[..|results| - 1]);
    }
  }

  lemma OneOverItself(t: int)
    requires t != 0
    ensures t as real / t as real == 1.0
  {
  }

  /** An all-I Pauli string measures nothing: the value is exactly 1 whenever it is defined. */
  lemma IdentityGivesOne(pauli: string, results: Counts)
    requires forall i :: 0 <= i < |pauli| ==> pauli[i] == 'I'
    requires Total(results) != 0
    ensures Evaluate(pauli, results) == Success(1.0)
  {
    forall k | 0 <= k < |results| ensures Sign(pauli, results[k].0) == 1 {
      NoFlips(pauli, results[k].0, MinLen(pauli, results[k].0));
    }
    AllPositive(pauli, results);
    OneOverItself(Total(results));
  }

  /** Results whose keys hold no '1' give exactly 1 whenever the value is defined. */
  lemma AllZeroKeysGiveOne(pauli: string, results: Counts)
    requires forall k, i :: 0 <= k < |results| && 0 <= i < |results[k].0| ==> results[k].0[i] == '0'
    requires Total(results) != 0
    ensures Evaluate(pauli, results) == Success(1.0)
  {
    forall k | 0 <= k < |results| ensures Sign(pauli, results[k].0) == 1 {
      NoFlips(pauli, results[k].0, MinLen(pauli, results[k].0));
    }
    AllPositive(pauli, results);
    OneOverItself(Total(results));
  }

  /** Empty results, or weights summing to zero, divide by zero. */
  lemma ZeroTotalRaises(pauli: string, results: Counts)
    ensures Total(results) == 0 ==> Evaluate(pauli, results) == Failure(ZeroDivisionError)
    ensures Evaluate(pauli, []) == Failure(ZeroDivisionError)
  {
  }

  /** Count keys are big-endian: clbit c of nc stands at string position nc - 1 - c. */
  function KeyPosition(nc: nat, c: int): int {
    nc - 1 - c
  }

  /** The bit-order contract between apply and evaluate_pauli: every measurement apply emits puts
      qubit q, which is a non-I position of the basis, at key position q, so evaluate_pauli's zip
      pairs each Pauli symbol with its own qubit's bit; the clbit is in range iff q < nc. */
  lemma BitOrderContract(s: string, nc: nat, q: nat, c: int)
    requires Measure(q, c) in Measurements(ActiveIndices(s), nc)
    ensures q < |s| && s[q] != 'I'
    ensures KeyPosition(nc, c) == q
    ensures 0 <= c < nc <==> q < nc
  {
    MeasuresExactlyActive(s, nc, q, c);
  }

  // ---------------------------------------------------------------- the energy loop

  /** What the loop sees of a basis object: its string and its results, if any. */
  datatype BasisView = BasisView(basis: string, results: Option<Counts>)

  function Views(bases: seq<PauliBasis>): seq<BasisView>
    reads bases
  {
    seq(|bases|, k requires 0 <= k < |bases| reads bases => BasisView(bases[k].basis, bases[k].res))
  }

  /** The term's running sum e after view v. */
  function StepOf(pauli: string, v: BasisView, e: real): Result<real> {
    if !Contained(v.basis, pauli) then Success(e)
    else if v.results.None? then Failure(AttributeError)
    else
      var x :- Evaluate(pauli, v.results.value);
      Success(e + x)
  }

  /** The contribution of one term from the first n views: evaluate_pauli on the results of
      every basis containing the term, in basis order; a containing basis without results
      raises AttributeError, and the first error ends the loop. */
  function TermSum(pauli: string, views: seq<BasisView>, n: nat): Result<real>
    requires n <= |views|
  {
    if n == 0 then Success(0.0)
    else
      var acc :- TermSum(pauli, views, n - 1);
      StepOf(pauli, views[n - 1], acc)
  }

  /** The loop over the first n terms of the Hamiltonian, in order; the coefficients are never
      read. */
  function HamSum(ham: seq<(string, real)>, views: seq<BasisView>, n: nat): Result<real>
    requires n <= |ham|
  {
    if n == 0 then Success(0.0)
    else
      var acc :- HamSum(ham, views, n - 1);
      var t :- TermSum(ham[n - 1].0, views, |views|);
      Success(acc + t)
  }

  /** Once a term's sum has failed, the failure is its answer. */
  lemma {:induction false} TermFailurePersists(pauli: string, views: seq<BasisView>, j: nat, n: nat)
    requires j <= n <= |views| && TermSum(pauli, views, j).Failure?
    ensures TermSum(pauli, views, n) == TermSum(pauli, views, j)
  {
    if j < n {
      TermFailurePersists(pauli, views, j, n - 1);
    }
  }

  /** Once the sum over terms has failed, the failure is its answer. */
  lemma {:induction false} HamFailurePersists(ham: seq<(string, real)>, views: seq<BasisView>, i: nat, n: nat)
    requires i <= n <= |ham| && HamSum(ham, views, i).Failure?
    ensures HamSum(ham, views, n) == HamSum(ham, views, i)
  {
    if i < n {
      HamFailurePersists(ham, views, i, n - 1);
    }
  }

  /** One pass of the loop over the bases: the running sum moves on, or its error is the answer. */
  lemma TermStep(pauli: string, views: seq<BasisView>, j: nat, e: real, next: Result<real>)
    requires j < |views| && TermSum(pauli, views, j) == Success(e)
    requires next == StepOf(pauli, views[j], e)
    ensures next.Success? ==> TermSum(pauli, views, j + 1) == next
    ensures next.Failure? ==> TermSum(pauli, views, |views|) == next
  {
    if next.Failure? {
      TermFailurePersists(pauli, views, j + 1, |views|);
    }
  }

  /** One pass of the loop over the terms: the term's sum is added, or its error is the answer. */
  lemma HamStep(ham: seq<(string, real)>, views: seq<BasisView>, i: nat, e: real, term: Result<real>)
    requires i < |ham| && HamSum(ham, views, i) == Success(e)
    requires term == TermSum(ham[i].0, views, |views|)
    ensures term.Success? ==> HamSum(ham, views, i + 1) == Success(e + term.value)
    ensures term.Failure? ==> HamSum(ham, views, |ham|) == Failure(term.error)
  {
    if term.Failure? {
      HamFailurePersists(ham, views, i + 1, |ham|);
    }
  }

  /** One basis of the inner loop: contains, then results and evaluate_pauli if it does. */
  method Step(pauli: string, c: PauliBasis, e: real) returns (r: Result<real>)
    ensures r == StepOf(pauli, BasisView(c.basis, c.res), e)
  {
    var contained := c.Contains(OfString(pauli));
    if !contained {
      return Success(e);
    }
    var res := c.Results();
    if res.Failure? {
      return Failure(res.error);
    }
    var value := EvaluatePauli(pauli, res.value);
    if value.Failure? {
      return Failure(value.error);
    }
    return Success(e + value.value);
  }

  /** The inner loop of the script for one term: the sum over the bases containing it. */
  method AddTerm(pauli: string, counts: seq<PauliBasis>) returns (r: Result<real>)
    ensures r == TermSum(pauli, Views(counts), |counts|)
  {
    ghost var vs := Views(counts);
    var e := 0.0;
    for j := 0 to |counts|
      invariant TermSum(pauli, vs, j) == Success(e)
    {
      var next := Step(pauli, counts[j], e);
      TermStep(pauli, vs, j, e, next);
      if next.Failure? {
        return next;
      }
      e := next.value;
    }
    return Success(e);
  }

  /** The script's accumulation: E grows by evaluate_pauli(pauli, c.results) for every term and
      every basis c that contains it (the `continue` goes on to the next basis). */
  method Energy(ham: seq<(string, real)>, counts: seq<PauliBasis>) returns (r: Result<real>)
    ensures r == HamSum(ham, Views(counts), |ham|)
  {
    ghost var vs := Views(counts);
    var e := 0.0;
    for i := 0 to |ham|
      invariant HamSum(ham, vs, i) == Success(e)
    {
      var term := AddTerm(ham[i].0, counts);
      HamStep(ham, vs, i, e, term);
      if term.Failure? {
        return Failure(term.error);
      }
      e := e + term.value;
    }
    return Success(e);
  }

  lemma {:induction false} EnergyIgnoresCoefficients(ham1: seq<(string, real)>, ham2: seq<(string, real)>,
                                                     views: seq<BasisView>, n: nat)
    requires n <= |ham1| == |ham2| && forall i :: 0 <= i < |ham1| ==> ham1[i].0 == ham2[i].0
    ensures HamSum(ham1, views, n) == HamSum(ham2, views, n)
  {
    if n > 0 {
      EnergyIgnoresCoefficients(ham1, ham2, views, n - 1);
    }
  }

  /** A term's sum is defined exactly when every basis containing the term has results with a
      non-zero total; otherwise it is AttributeError or ZeroDivisionError. */
  lemma {:induction false} TermSumDefined(pauli: string, views: seq<BasisView>, n: nat)
    requires n <= |views|
    ensures TermSum(pauli, views, n).Success? <==>
      forall k :: 0 <= k < n && Contained(views[k].basis, pauli) ==>
        views[k].results.Some? && Total(views[k].results.value) != 0
    ensures TermSum(pauli, views, n).Failure? ==>
      TermSum(pauli, views, n).error == AttributeError || TermSum(pauli, views, n).error == ZeroDivisionError
  {
    if n > 0 {
      TermSumDefined(pauli, views, n - 1);
    }
  }

  /** A term no basis contains adds nothing, silently. */
  lemma {:induction false} UncoveredTermIsZero(pauli: string, views: seq<BasisView>, n: nat)
    requires n <= |views|
    requires forall k :: 0 <= k < n ==> !Contained(views[k].basis, pauli)
    ensures TermSum(pauli, views, n) == Success(0.0)
  {
    if n > 0 {
      UncoveredTermIsZero(pauli, views, n - 1);
    }
  }

  /** The `continue` does not stop at the first containing basis: a basis listed twice adds the
      term's value twice. */
  lemma DuplicateBasisCountedTwice(pauli: string, v: BasisView)
    requires Contained(v.basis, pauli) && v.results.Some? && Total(v.results.value) != 0
    ensures TermSum(pauli, [v, v], 2) == Success(2.0 * Evaluate(pauli, v.results.value).value)
  {
    var x := Evaluate(pauli, v.results.value).value;
    assert TermSum(pauli, [v, v], 1) == Success(0.0 + x);
  }

  /** A term only one basis contains gets exactly that basis's value. */
  lemma {:induction false} SingleCoverTerm(pauli: string, views: seq<BasisView>, k: nat, n: nat)
    requires k < n <= |views| && Contained(views[k].basis, pauli)
    requires views[k].results.Some? && Total(views[k].results.value) != 0
    requires forall i :: 0 <= i < n && i != k ==> !Contained(views[i].basis, pauli)
    ensures TermSum(pauli, views, n) == Success(Evaluate(pauli, views[k].results.value).value)
  {
    if k == n - 1 {
      UncoveredTermIsZero(pauli, views, n - 1);
      assert TermSum(pauli, views, n) == Success(0.0 + Evaluate(pauli, views[k].results.value).value);
    } else {
      SingleCoverTerm(pauli, views, k, n - 1);
    }
  }

  /** Among the bases XX, YY and ZZ each contains its own string and no other. */
  lemma MinimalExampleCover(i: nat, j: nat)
    requires i < 3 && j < 3
    ensures Contained(["XX", "YY", "ZZ"][i], ["XX", "YY", "ZZ"][j]) <==> i == j
  {
    var names: seq<string> := ["XX", "YY", "ZZ"];
    ContainedIff(names[i], names[j]);
    if i != j {
      assert names[i][0] != names[j][0];
    }
  }

  /** The three views of the script's own case: bases XX, YY and ZZ with their results. */
  function MinimalViews(rxx: Counts, ryy: Counts, rzz: Counts): (views: seq<BasisView>)
    ensures |views| == 3 && forall k :: 0 <= k < 3 ==> views[k].results.Some?
  {
    [BasisView("XX", Some(rxx)), BasisView("YY", Some(ryy)), BasisView("ZZ", Some(rzz))]
  }

  /** In the script's own case each term is measured by its own basis alone. */
  lemma MinimalExampleTerms(rxx: Counts, ryy: Counts, rzz: Counts)
    requires Total(rxx) != 0 && Total(ryy) != 0 && Total(rzz) != 0
    ensures TermSum("XX", MinimalViews(rxx, ryy, rzz), 3) == Success(Evaluate("XX", rxx).value)
    ensures TermSum("YY", MinimalViews(rxx, ryy, rzz), 3) == Success(Evaluate("YY", ryy).value)
    ensures TermSum("ZZ", MinimalViews(rxx, ryy, rzz), 3) == Success(Evaluate("ZZ", rzz).value)
  {
    var views := MinimalViews(rxx, ryy, rzz);
    var names: seq<string> := ["XX", "YY", "ZZ"];
    forall i, j | 0 <= i < 3 && 0 <= j < 3
      ensures Contained(views[i].basis, names[j]) <==> i == j
    {
      MinimalExampleCover(i, j);
    }
    SingleCoverTerm("XX", views, 0, 3);
    SingleCoverTerm("YY", views, 1, 3);
    SingleCoverTerm("ZZ", views, 2, 3);
  }

  /** A three-term Hamiltonian whose terms all have sums gets their total. */
  lemma HamSumOfThree(ham: seq<(string, real)>, views: seq<BasisView>, a: real, b: real, c: real)
    requires |ham| == 3
    requires TermSum(ham[0].0, views, |views|) == Success(a)
    requires TermSum(ham[1].0, views, |views|) == Success(b)
    requires TermSum(ham[2].0, views, |views|) == Success(c)
    ensures HamSum(ham, views, 3) == Success(a + b + c)
  {
    HamStep(ham, views, 0, 0.0, Success(a));
    HamStep(ham, views, 1, 0.0 + a, Success(b));
    HamStep(ham, views, 2, 0.0 + a + b, Success(c));
  }

  /** The script's own case: Hamiltonian XX + YY + ZZ measured in the bases XX, YY and ZZ. No
      basis contains another's term, so the energy is the sum of the three values, each from
      its own basis, and the coefficients play no part. */
  lemma MinimalExampleEnergy(rxx: Counts, ryy: Counts, rzz: Counts)
    requires Total(rxx) != 0 && Total(ryy) != 0 && Total(rzz) != 0
    ensures HamSum([("XX", 1.0), ("YY", 1.0), ("ZZ", 1.0)], MinimalViews(rxx, ryy, rzz), 3) ==
      Success(Evaluate("XX", rxx).value + Evaluate("YY", ryy).value + Evaluate("ZZ", rzz).value)
  {
    var ham: seq<(string, real)> := [("XX", 1.0), ("YY", 1.0), ("ZZ", 1.0)];
    MinimalExampleTerms(rxx, ryy, rzz);
    HamSumOfThree(ham, MinimalViews(rxx, ryy, rzz),
                  Evaluate("XX", rxx).value, Evaluate("YY", ryy).value, Evaluate("ZZ", rzz).value);
  }
}
