/** The quantum circuit the basis logic writes to, reduced to what that logic observes:
    its qubit count, its classical-bit count and the list of gate records appended to it.
    The class stands in for the external circuit library; its methods append one record
    each and check nothing (qubit ranges are the library's business). */
module Circuits {

  datatype Gate =
    | Barrier
    | Sdg(q: nat)               // S-dagger on qubit q
    | H(q: nat)                 // Hadamard on qubit q
    | Measure(q: nat, c: int)   // measure qubit q into classical bit c

  datatype CircuitState = CircuitState(numQubits: nat, numClbits: nat, gates: seq<Gate>)

  /** One Measure record per (qubit, clbit) pair, in order: what circuit.measure(qs, cs) appends. */
  function MeasureGates(qs: seq<nat>, cs: seq<int>): (r: seq<Gate>)
    requires |qs| == |cs|
    ensures |r| == |qs| && forall k :: 0 <= k < |qs| ==> r[k] == Measure(qs[k], cs[k])
  {
    seq(|qs|, k requires 0 <= k < |qs| => Measure(qs[k], cs[k]))
  }

  class Circuit {
    const numQubits: nat
    var numClbits: nat
    var gates: seq<Gate>

    function State(): CircuitState
      reads this
    {
      CircuitState(numQubits, numClbits, gates)
    }

    /** An independent circuit holding `state`; also what circuit.copy() produces. */
    constructor (state: CircuitState)
      ensures State() == state
    {
      numQubits, numClbits, gates := state.numQubits, state.numClbits, state.gates;
    }

    method AddBarrier()
      modifies this
      ensures numClbits == old(numClbits) && gates == old(gates) + [Barrier]
    {
      gates := gates + [Barrier];
    }

    method ApplySdg(q: nat)
      modifies this
      ensures numClbits == old(numClbits) && gates == old(gates) + [Sdg(q)]
    {
      gates := gates + [Sdg(q)];
    }

    method ApplyH(q: nat)
      modifies this
      ensures numClbits == old(numClbits) && gates == old(gates) + [H(q)]
    {
      gates := gates + [H(q)];
    }

    method MeasureAll(qs: seq<nat>, cs: seq<int>)
      requires |qs| == |cs|
      modifies this
      ensures numClbits == old(numClbits) && gates == old(gates) + MeasureGates(qs, cs)
    {
      gates := gates + MeasureGates(qs, cs);
    }

    /** Adds a classical register with one bit per qubit. */
    method AddClassicalRegister()
      modifies this`numClbits
      ensures numClbits == old(numClbits) + numQubits && gates == old(gates)
    {
      numClbits := numClbits + numQubits;
    }
  }
}
