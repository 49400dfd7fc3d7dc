/** PauliBasis: one Pauli measurement basis, a string over {I, X, Y, Z} with one symbol per
    qubit. The class keeps the upper-cased string, the lazily computed list of active (non-I)
    qubits and the results assigned after a run; the functions before it specify what its
    methods compute. */
module PauliBases {
  import opened Failures
  import opened PyStrings
  import opened Circuits

  /** A results table: the (bit-string, frequency) items of a counts dictionary, in order. */
  type Counts = seq<(string, int)>

  predicate KnownSymbol(p: char) {
    p == 'I' || p == 'X' || p == 'Y' || p == 'Z'
  }

  /** Index of the first symbol outside {I, X, Y, Z}, or |s| when there is none. */
  function FirstUnknown(s: string): (k: nat)
    ensures k <= |s|
    ensures forall i :: 0 <= i < k ==> KnownSymbol(s[i])
    ensures k < |s| ==> !KnownSymbol(s[k])
  {
    if s == [] then 0 else if !KnownSymbol(s[0]) then 0 else 1 + FirstUnknown(s[1..])
  }

  predicate KnownSymbols(s: string) {
    FirstUnknown(s) == |s|
  }

  // ---------------------------------------------------------------- apply

  /** Basis-change gates for symbol p on qubit j: Y gives S-dagger then H, X gives H,
      I and Z give nothing. */
  function SymbolGates(p: char, j: nat): seq<Gate> {
    if p == 'Y' then [Sdg(j), H(j)] else if p == 'X' then [H(j)] else []
  }

  /** The rotations _apply emits for s, qubit by qubit in index order. */
  function RotationGates(s: string): seq<Gate> {
    if s == [] then [] else RotationGates(s[..|s| - 1]) + SymbolGates(s[|s| - 1], |s| - 1)
  }

  /** The rotations of one more qubit follow those of the earlier ones. */
  lemma RotationsExtend(start: seq<Gate>, s: string, j: nat)
    requires j < |s|
    ensures start + RotationGates(s[..j + 1]) == (start + RotationGates(s[..j])) + SymbolGates(s[j], j)
  {
    assert s[..j + 1][..j] == s[..j];
    ConcatAssociative(start, RotationGates(s[..j]), SymbolGates(s[j], j));
  }

  function BarrierGates(barriers: bool): seq<Gate> {
    if barriers then [Barrier] else []
  }

  /** Indices of the non-I symbols of s, ascending: the list initialise stores in `active`. */
  function ActiveIndices(s: string): seq<nat> {
    if s == [] then []
    else ActiveIndices(s[..|s| - 1]) + (if s[|s| - 1] != 'I' then [|s| - 1] else [])
  }

  /** Qubit i of `active` measured into classical bit nc - i - 1. */
  function Measurements(active: seq<nat>, nc: nat): seq<Gate> {
    MeasureGates(active, seq(|active|, k requires 0 <= k < |active| => nc - active[k] - 1))
  }

  /** The exception apply raises for basis s, if any. */
  function ApplyError(s: string): Option<Error> {
    if FirstUnknown(s) < |s| then Some(KeyError(s[FirstUnknown(s)])) else None
  }

  /** The circuit state after apply(circuit, barriers) with basis s. When s holds an unknown
      symbol the KeyError leaves the rotations of the earlier qubits in place and measures
      nothing; otherwise a register is added to a circuit without classical bits and every
      active qubit is measured. */
  function AfterApply(st: CircuitState, s: string, barriers: bool): CircuitState {
    var rotated := st.(gates := st.gates + BarrierGates(barriers) + RotationGates(s[..FirstUnknown(s)]));
    if FirstUnknown(s) < |s| then rotated
    else
      var nc := if st.numClbits == 0 then st.numQubits else st.numClbits;
      rotated.(numClbits := nc, gates := rotated.gates + Measurements(ActiveIndices(s), nc))
  }

  function Qubit(g: Gate): int {
    match g
    case Barrier => -1
    case Sdg(q) => q
    case H(q) => q
    case Measure(q, _) => q
  }

  /** `active` is exactly the non-I positions, strictly ascending (so sorted() leaves it as is). */
  lemma {:induction false} ActiveIndicesCharacterised(s: string)
    ensures forall k :: 0 <= k < |ActiveIndices(s)| ==>
      ActiveIndices(s)[k] < |s| && s[ActiveIndices(s)[k]] != 'I'
    ensures forall k, l :: 0 <= k < l < |ActiveIndices(s)| ==> ActiveIndices(s)[k] < ActiveIndices(s)[l]
    ensures forall i :: 0 <= i < |s| && s[i] != 'I' ==> i in ActiveIndices(s)
  {
    if s != [] {
      var init := s[..|s| - 1];
      ActiveIndicesCharacterised(init);
      assert forall i :: 0 <= i < |init| ==> init[i] == s[i];
    }
  }

  /** Every rotation is an S-dagger or an H on a qubit of the basis; the gates go in qubit order,
      and on one qubit the S-dagger comes before the H. */
  lemma {:induction false} RotationsInQubitOrder(s: string)
    ensures forall g :: g in RotationGates(s) ==> (g.Sdg? || g.H?) && g.q < |s|
    ensures forall a, b :: 0 <= a < b < |RotationGates(s)| ==>
      Qubit(RotationGates(s)[a]) < Qubit(RotationGates(s)[b]) ||
      (Qubit(RotationGates(s)[a]) == Qubit(RotationGates(s)[b]) &&
       RotationGates(s)[a].Sdg? && RotationGates(s)[b].H?)
  {
    if s != [] {
      var init := s[..|s| - 1];
      RotationsInQubitOrder(init);
      var R, G := RotationGates(init), SymbolGates(s[|s| - 1], |s| - 1);
      assert RotationGates(s) == R + G;
      forall a, b | 0 <= a < b < |R + G|
        ensures Qubit((R + G)[a]) < Qubit((R + G)[b]) ||
          (Qubit((R + G)[a]) == Qubit((R + G)[b]) && (R + G)[a].Sdg? && (R + G)[b].H?)
      {
        if b >= |R| && a < |R| {
          assert (R + G)[a] in R;
        }
      }
    }
  }

  /** For every qubit j: an H is emitted exactly when the symbol is X or Y, an S-dagger exactly
      when it is Y; I and Z positions (and positions past the end) get no rotation. */
  lemma {:induction false} RotationsExactlyOnXY(s: string, j: nat)
    ensures H(j) in RotationGates(s) <==> j < |s| && (s[j] == 'X' || s[j] == 'Y')
    ensures Sdg(j) in RotationGates(s) <==> j < |s| && s[j] == 'Y'
  {
    if s != [] {
      var init := s[..|s| - 1];
      RotationsExactlyOnXY(init, j);
      RotationsInQubitOrder(init);
      assert RotationGates(s) == RotationGates(init) + SymbolGates(s[|s| - 1], |s| - 1);
      if j < |init| { assert init[j] == s[j]; }
    }
  }

  /** apply measures exactly the active qubits, qubit q into classical bit nc - q - 1. */
  lemma MeasuresExactlyActive(s: string, nc: nat, q: nat, c: int)
    ensures Measure(q, c) in Measurements(ActiveIndices(s), nc) <==>
      (q < |s| && s[q] != 'I' && c == nc - q - 1)
  {
    ActiveIndicesCharacterised(s);
    var A := ActiveIndices(s);
    var M := Measurements(A, nc);
    if Measure(q, c) in M {
      var k :| 0 <= k < |M| && M[k] == Measure(q, c);
      assert A[k] == q;
    }
    if q < |s| && s[q] != 'I' && c == nc - q - 1 {
      var k :| 0 <= k < |A| && A[k] == q;
      assert M[k] == Measure(q, c);
    }
  }

  /** Basis "XX" on a two-qubit circuit: an H on qubits 0 and 1, then both measured, qubit 0
      into the most significant classical bit; a circuit without classical bits gets two. */
  lemma ApplyXX()
    ensures AfterApply(CircuitState(2, 2, []), "XX", false) ==
      CircuitState(2, 2, [H(0), H(1), Measure(0, 1), Measure(1, 0)])
    ensures AfterApply(CircuitState(2, 0, []), "XX", false) ==
      CircuitState(2, 2, [H(0), H(1), Measure(0, 1), Measure(1, 0)])
  {
    assert FirstUnknown("XX") == 2;
    assert "XX"[..2] == "XX" && "XX"[..1] == "X";
    assert RotationGates("XX") == [H(0), H(1)];
    assert ActiveIndices("XX") == [0, 1];
  }

  // ---------------------------------------------------------------- difference / contains

  /** The symbol of s at position i, 'I' past its end (zip_longest's fill value). */
  function SymbolAt(s: string, i: nat): char {
    if i < |s| then s[i] else 'I'
  }

  function Longest(a: string, b: string): nat {
    if |a| < |b| then |b| else |a|
  }

  /** Symbols p1 of self and p2 of other that no single circuit measures together. */
  predicate Clash(p1: char, p2: char) {
    p2 != p1 && p2 != 'I' && p1 != 'I'
  }

  predicate Conflict(a: string, b: string) {
    exists i: nat :: i < Longest(a, b) && Clash(SymbolAt(a, i), SymbolAt(b, i))
  }

  /** Positions below n where a is I and b is not. */
  function Extra(a: string, b: string, n: nat): nat {
    if n == 0 then 0
    else Extra(a, b, n - 1) + (if SymbolAt(a, n - 1) == 'I' && SymbolAt(b, n - 1) != 'I' then 1 else 0)
  }

  /** What a.difference(b) returns or raises. */
  function DifferenceOf(a: string, b: string): Result<nat> {
    if Conflict(a, b) then Failure(CommutationError) else Success(Extra(a, b, Longest(a, b)))
  }

  /** What a.contains(b) returns: difference raised nothing and returned 0. */
  predicate Contained(a: string, b: string) {
    DifferenceOf(a, b) == Success(0)
  }

  lemma {:induction false} ExtraZero(a: string, b: string, n: nat)
    ensures Extra(a, b, n) == 0 <==>
      forall i: nat :: i < n ==> !(SymbolAt(a, i) == 'I' && SymbolAt(b, i) != 'I')
  {
    if n > 0 { ExtraZero(a, b, n - 1); }
  }

  /** The padding never clashes: difference raises exactly when some common position holds two
      non-I, unequal symbols; otherwise it counts the positions where a is I and b is not. */
  lemma DifferenceCharacterised(a: string, b: string)
    ensures DifferenceOf(a, b).Failure? <==>
      exists i :: 0 <= i < |a| && i < |b| && a[i] != 'I' && b[i] != 'I' && a[i] != b[i]
    ensures DifferenceOf(a, b).Failure? ==> DifferenceOf(a, b).error == CommutationError
    ensures DifferenceOf(a, b).Success? ==> DifferenceOf(a, b).value == Extra(a, b, Longest(a, b))
  {
    if Conflict(a, b) {
      var i: nat :| i < Longest(a, b) && Clash(SymbolAt(a, i), SymbolAt(b, i));
      assert i < |a| && i < |b|;
    }
    if exists i :: 0 <= i < |a| && i < |b| && a[i] != 'I' && b[i] != 'I' && a[i] != b[i] {
      var i :| 0 <= i < |a| && i < |b| && a[i] != 'I' && b[i] != 'I' && a[i] != b[i];
      assert Clash(SymbolAt(a, i), SymbolAt(b, i));
    }
  }

  /** a contains b exactly when every non-I symbol of b is matched by the same symbol of a. */
  lemma ContainedIff(a: string, b: string)
    ensures Contained(a, b) <==> forall i :: 0 <= i < |b| ==> b[i] == 'I' || (i < |a| && a[i] == b[i])
  {
    var n := Longest(a, b);
    ExtraZero(a, b, n);
    if Contained(a, b) {
      forall i | 0 <= i < |b| ensures b[i] == 'I' || (i < |a| && a[i] == b[i]) {
        var k: nat := i;
        assert !Clash(SymbolAt(a, k), SymbolAt(b, k));
        assert !(SymbolAt(a, k) == 'I' && SymbolAt(b, k) != 'I');
      }
    }
    if forall i :: 0 <= i < |b| ==> b[i] == 'I' || (i < |a| && a[i] == b[i]) {
      assert forall i: nat :: i < n ==> SymbolAt(b, i) == 'I' || SymbolAt(b, i) == SymbolAt(a, i);
      assert !Conflict(a, b);
    }
  }

  /** Every basis contains itself. */
  lemma ContainedReflexive(a: string)
    ensures Contained(a, a)
  {
    ContainedIff(a, a);
  }

  /** "IX" contains "IX" but not "XX"; "IX".difference("XI") returns 1 (position 0 is I in
      self only, position 1 is I in other) rather than raising. */
  lemma ContainsExamples()
    ensures Contained("IX", "IX")
    ensures !Contained("IX", "XX")
    ensures DifferenceOf("IX", "XI") == Success(1)
  {
    ContainedIff("IX", "IX");
    ContainedIff("IX", "XX");
    DifferenceCharacterised("IX", "XI");
    assert Extra("IX", "XI", 2) == 1;
  }

  // ---------------------------------------------------------------- the class

  /** The things difference, contains and the comparisons accept: another basis (its string is
      used) or a raw string (used as it is, without upper-casing). */
  datatype Operand = OfBasis(obj: PauliBasis) | OfString(text: string)

  function OperandReads(o: Operand): set<PauliBasis> {
    if o.OfBasis? then {o.obj} else {}
  }

  /** `other.basis` when other has that attribute, other itself otherwise. */
  function OperandText(o: Operand): string
    reads OperandReads(o)
  {
    if o.OfBasis? then o.obj.basis else o.text
  }

  class PauliBasis {
    var basis: string
    var active: Option<seq<nat>>
    var res: Option<Counts>

    /** `active`, once computed, matches the current basis string. */
    ghost predicate Valid()
      reads this
    {
      active.Some? ==> active.value == ActiveIndices(basis)
    }

    constructor (elements: string)
      ensures Valid() && basis == Upper(elements) && active == None && res == None
    {
      basis := Upper(elements);
      active := None;
      res := None;
    }

    /** The basis setter: stores the upper-cased string and discards `active`. */
    method SetBasis(elements: string)
      modifies this
      ensures Valid() && basis == Upper(elements) && active == None && res == old(res)
    {
      basis := Upper(elements);
      active := None;
    }

    /** The results setter. */
    method SetResults(counts: Counts)
      modifies this`res
      ensures res == Some(counts)
    {
      res := Some(counts);
    }

    /** The results getter: AttributeError until results were assigned. */
    method Results() returns (r: Result<Counts>)
      ensures res.None? ==> r == Failure(AttributeError)
      ensures res.Some? ==> r == Success(res.value)
    {
      if res.None? {
        return Failure(AttributeError);
      }
      return Success(res.value);
    }

    method Initialise()
      modifies this`active
      ensures Valid() && active == Some(ActiveIndices(basis))
    {
      active := Some(ActiveIndices(basis));
    }

    /** _apply: the basis-change gates, qubit by qubit; an unknown symbol raises KeyError after
        the gates of the earlier qubits were appended. */
    method ApplyRotations(circuit: Circuit, barriers: bool) returns (r: Result<()>)
      modifies circuit
      ensures circuit.numClbits == old(circuit.numClbits)
      ensures circuit.gates ==
        old(circuit.gates) + BarrierGates(barriers) + RotationGates(basis[..FirstUnknown(basis)])
      ensures r.Success? <==> ApplyError(basis).None?
      ensures r.Failure? ==> Some(r.error) == ApplyError(basis)
    {
      if barriers {
        circuit.AddBarrier();
      }
      ghost var start := circuit.gates;
      var j := 0;
      while j < |basis|
        invariant 0 <= j <= FirstUnknown(basis)
        invariant circuit.numClbits == old(circuit.numClbits)
        invariant circuit.gates == start + RotationGates(basis[..j])
      {
        var p := basis[j];
        RotationsExtend(start, basis, j);
        if p == 'I' || p == 'Z' {
          j := j + 1;
          continue;
        }
        ghost var before := circuit.gates;
        if p == 'Y' {
          circuit.ApplySdg(j);
        }
        if p == 'X' || p == 'Y' {
          circuit.ApplyH(j);
          if p == 'Y' {
            ConcatAssociative(before, [Sdg(j)], [H(j)]);
          }
          j := j + 1;
          continue;
        }
        return Failure(KeyError(p));
      }
      assert basis[..j] == basis;
      return Success(());
    }

    /** apply: computes `active` if needed, emits the rotations, adds a classical register when
        the circuit has none and measures every active qubit i into clbit nc - i - 1. */
    method Apply(circuit: Circuit, barriers: bool) returns (r: Result<()>)
      requires Valid()
      modifies this`active, circuit
      ensures Valid() && active == Some(ActiveIndices(basis))
      ensures circuit.State() == AfterApply(old(circuit.State()), basis, barriers)
      ensures r.Success? <==> ApplyError(basis).None?
      ensures r.Failure? ==> Some(r.error) == ApplyError(basis)
    {
      if active.None? {
        Initialise();
      }
      r := ApplyRotations(circuit, barriers);
      if r.Failure? {
        return;
      }
      if circuit.numClbits == 0 {
        circuit.AddClassicalRegister();
      }
      // sorted(self.active) is the list itself: ActiveIndicesCharacterised shows it ascending
      var act := active.value;
      var nc: int := circuit.numClbits;
      circuit.MeasureAll(act, seq(|act|, k requires 0 <= k < |act| => nc - act[k] - 1));
    }

    /** __lt__: the basis string before other's in Python's string order. */
    function Less(other: Operand): bool
      reads this, OperandReads(other)
    {
      LexLess(basis, OperandText(other))
    }

    /** __gt__ */
    function Greater(other: Operand): bool
      reads this, OperandReads(other)
    {
      LexLess(OperandText(other), basis)
    }

    /** __eq__ */
    function Equal(other: Operand): bool
      reads this, OperandReads(other)
    {
      basis == OperandText(other)
    }

    /** __hash__: the hash of the basis string, for a given string hash. */
    function Hash(strHash: string -> int): int
      reads this
    {
      strHash(basis)
    }

    /** __len__ */
    function Length(): nat
      reads this
    {
      |basis|
    }

    /** The comparisons order bases like their strings: exactly one of <, ==, > holds, and
        < is transitive. */
    lemma ComparisonsTotal(other: Operand)
      ensures Less(other) || Equal(other) || Greater(other)
      ensures !(Less(other) && Equal(other)) && !(Less(other) && Greater(other))
      ensures !(Equal(other) && Greater(other))
    {
      LexLessTrichotomy(basis, OperandText(other));
    }

    /** Equal bases hash alike, so bases can key sets and dictionaries. */
    lemma HashAgreesWithEqual(other: PauliBasis, strHash: string -> int)
      requires Equal(OfBasis(other))
      ensures Hash(strHash) == other.Hash(strHash)
    {
    }

    /** difference: walks both strings with the shorter padded by I, raises CommutationError at
        the first clash, and otherwise counts the positions where self is I and other is not.
        The `check` flag is ignored. */
    method Difference(other: Operand, check: bool) returns (r: Result<nat>)
      ensures r == DifferenceOf(basis, OperandText(other))
    {
      var o := OperandText(other);
      var diff := 0;
      var n := Longest(basis, o);
      for i := 0 to n
        invariant diff == Extra(basis, o, i)
        invariant forall k: nat :: k < i ==> !Clash(SymbolAt(basis, k), SymbolAt(o, k))
      {
        var p1, p2 := SymbolAt(basis, i), SymbolAt(o, i);
        if p2 == p1 || p2 == 'I' {
          continue;
        }
        if p1 == 'I' {
          diff := diff + 1;
          continue;
        }
        assert Clash(SymbolAt(basis, i), SymbolAt(o, i));
        return Failure(CommutationError);
      }
      return Success(diff);
    }

    /** contains: never raises; true exactly when difference returns 0. */
    method Contains(other: Operand) returns (c: bool)
      ensures c == Contained(basis, OperandText(other))
    {
      var d := Difference(other, false);
      c := d.Success? && d.value == 0;
    }
  }
}
