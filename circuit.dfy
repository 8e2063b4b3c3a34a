/** The circuit builder: it collects input values, gates and declared outputs,
    lowers the gates into an R1CS and evaluates it to a validity bit. */
module Circuits {
  import opened HashFunctions
  import R1cs

  datatype Option<T> = None | Some(value: T)

  newtype byte = x: int | 0 <= x < 256

  /** A gate names two operand inputs and the input holding the claimed result. */
  datatype Gate =
    | Add(a: nat, b: nat, out: nat)
    | Mul(a: nat, b: nat, out: nat)
    | Hash(a: nat, b: nat, out: nat)

  /** The hash used when a circuit is configured with `hashFunction`:
      the configured one, or addition when there is none. */
  function ApplyHashWith(hashFunction: Option<HashFunction>, a: int, b: int): int
  {
    match hashFunction
    case Some(hash) => hash(a, b)
    case None => a + b
  }

  /** With no hash configured, hashing agrees with both reference hashes. */
  lemma DefaultHashIsAdditive(a: int, b: int)
    ensures ApplyHashWith(None, a, b) == SimpleAddHash(a, b)
    ensures ApplyHashWith(None, a, b) == ApplyHashWith(Some(SimpleAddHash), a, b)
    ensures ApplyHashWith(None, a, b) == ApplyHashWith(Some(CustomHash), a, b)
  {
  }

  /** The closure handed to the evaluator for Hash-tagged constraints. */
  function Checker(hashFunction: Option<HashFunction>): (hash: HashFunction)
    ensures hashFunction.None? ==> forall a: int, b: int :: hash(a, b) == SimpleAddHash(a, b)
    ensures hashFunction.Some? ==> forall a: int, b: int :: hash(a, b) == hashFunction.value(a, b)
  {
    (a: int, b: int) => ApplyHashWith(hashFunction, a, b)
  }

  predicate InRange(g: Gate, n: nat)
  {
    g.a < n && g.b < n && g.out < n
  }

  predicate AllInRange(gates: seq<Gate>, n: nat)
  {
    forall i :: 0 <= i < |gates| ==> InRange(gates[i], n)
  }

  /** What a gate claims about the inputs `x`: its output input holds the
      sum, product or hash of its operand inputs. */
  predicate GateHolds(g: Gate, x: seq<int>, hashFunction: Option<HashFunction>)
    requires InRange(g, |x|)
  {
    match g
    case Add(a, b, out) => x[a] + x[b] == x[out]
    case Mul(a, b, out) => x[a] * x[b] == x[out]
    case Hash(a, b, out) => ApplyHashWith(hashFunction, x[a], x[b]) == x[out]
  }

  /** Every gate's claim holds; the declared outputs play no part. */
  predicate AllGatesHold(gates: seq<Gate>, x: seq<int>, hashFunction: Option<HashFunction>)
    requires AllInRange(gates, |x|)
  {
    forall i :: 0 <= i < |gates| ==> GateHolds(gates[i], x, hashFunction)
  }

  /** The inputs as indexed variables: the i-th carries index i and the i-th value. */
  function Snapshot(inputs: seq<int>): (vars: seq<R1cs.Variable>)
    ensures |vars| == |inputs|
    ensures forall i :: 0 <= i < |inputs| ==> vars[i] == R1cs.Variable(i, inputs[i])
  {
    if inputs == [] then []
    else Snapshot(inputs[..|inputs| - 1]) + [R1cs.Variable(|inputs| - 1, inputs[|inputs| - 1])]
  }

  function OperationOf(g: Gate): R1cs.Operation
  {
    match g
    case Add(_, _, _) => R1cs.Add
    case Mul(_, _, _) => R1cs.Mul
    case Hash(_, _, _) => R1cs.Hash
  }

  /** The constraint a gate compiles to: each side one term of coefficient 1. */
  function Lower(g: Gate, vars: seq<R1cs.Variable>): R1cs.Constraint
    requires InRange(g, |vars|)
  {
    R1cs.Constraint([(vars[g.a], 1)], [(vars[g.b], 1)], [(vars[g.out], 1)], OperationOf(g))
  }

  /** A compiled gate passes the evaluator exactly when the gate's claim holds. */
  lemma LowerPassesIffGateHolds(g: Gate, x: seq<int>, hashFunction: Option<HashFunction>)
    requires InRange(g, |x|)
    ensures R1cs.Passes(Lower(g, Snapshot(x)), Checker(hashFunction)) <==> GateHolds(g, x, hashFunction)
  {
    var vars := Snapshot(x);
    var hash := Checker(hashFunction);
    assert vars[g.a].value == x[g.a] && vars[g.b].value == x[g.b] && vars[g.out].value == x[g.out];
    R1cs.PassesUnitSides(vars[g.a], vars[g.b], vars[g.out], OperationOf(g), hash);
    match g
    case Add(a, b, out) =>
    case Mul(a, b, out) =>
    case Hash(a, b, out) =>
      assert hash(x[a], x[b]) == ApplyHashWith(hashFunction, x[a], x[b]);
  }

  /** Lifting the per-gate equivalence to a whole compiled circuit. */
  lemma CompiledPassIffGatesHold(gates: seq<Gate>, x: seq<int>, hashFunction: Option<HashFunction>,
                                 cs: seq<R1cs.Constraint>)
    requires AllInRange(gates, |x|)
    requires |cs| == |gates|
    requires forall i :: 0 <= i < |gates| ==> cs[i] == Lower(gates[i], Snapshot(x))
    ensures R1cs.AllPass(cs, Checker(hashFunction)) <==> AllGatesHold(gates, x, hashFunction)
  {
    var hash := Checker(hashFunction);
    if R1cs.AllPass(cs, hash) {
      forall i | 0 <= i < |gates| ensures GateHolds(gates[i], x, hashFunction) {
        assert R1cs.Passes(cs[i], hash);
        LowerPassesIffGateHolds(gates[i], x, hashFunction);
      }
    }
    if AllGatesHold(gates, x, hashFunction) {
      forall i | 0 <= i < |cs| ensures R1cs.Passes(cs[i], hash) {
        assert GateHolds(gates[i], x, hashFunction);
        LowerPassesIffGateHolds(gates[i], x, hashFunction);
      }
    }
  }

  /** The single byte written as the proof: 1 for valid, 0 for invalid. */
  function EncodeValidity(isValid: bool): (b: byte)
    ensures b == 0 || b == 1
    ensures VerifyProof([b]) == isValid
  {
    if isValid then 1 else 0
  }

  /** Reading a proof back: only its first byte matters, and only 1 means valid. */
  function VerifyProof(proofData: seq<byte>): (isValid: bool)
    requires |proofData| > 0
    ensures proofData[0] <= 1 ==> proofData[0] == if isValid then 1 else 0
    ensures proofData[0] > 1 ==> !isValid
  {
    proofData[0] == 1
  }

  /** Writing a validity bit and reading it back returns it, whatever follows the first byte. */
  lemma ValidityRoundTrip(isValid: bool, trailing: seq<byte>)
    ensures VerifyProof([EncodeValidity(isValid)] + trailing) == isValid
  {
  }

  class Circuit {
    const hashFunction: Option<HashFunction>
    var inputs: seq<int>
    var gates: seq<Gate>
    var outputs: seq<int>

    /** An empty circuit that keeps the given optional hash. */
    constructor (hashFunction: Option<HashFunction>)
      ensures this.hashFunction == hashFunction
      ensures inputs == [] && gates == [] && outputs == []
    {
      this.hashFunction := hashFunction;
      inputs, gates, outputs := [], [], [];
    }

    /** Appends an input and returns its index, the previous input count. */
    method AddInput(value: int) returns (index: nat)
      modifies this
      ensures index == |old(inputs)|
      ensures inputs == old(inputs) + [value]
      ensures GetInput(index) == Some(value)
      ensures forall i :: 0 <= i < index ==> GetInput(i) == old(GetInput(i))
      ensures gates == old(gates) && outputs == old(outputs)
    {
      index := |inputs|;
      inputs := inputs + [value];
    }

    /** Appends a gate without checking its indices. */
    method AddGate(gate: Gate)
      modifies this
      ensures gates == old(gates) + [gate]
      ensures inputs == old(inputs) && outputs == old(outputs)
    {
      gates := gates + [gate];
    }

    /** Appends a declared output; it is never checked against anything. */
    method SetOutput(value: int)
      modifies this
      ensures outputs == old(outputs) + [value]
      ensures inputs == old(inputs) && gates == old(gates)
    {
      outputs := outputs + [value];
    }

    /** The configured hash of `a` and `b`, or `a + b` when none is configured. */
    function ApplyHash(a: int, b: int): (r: int)
      ensures hashFunction.None? ==> r == SimpleAddHash(a, b)
      ensures hashFunction.Some? ==> r == hashFunction.value(a, b)
      ensures r == Checker(hashFunction)(a, b)
    {
      ApplyHashWith(hashFunction, a, b)
    }

    /** The input at `index`, or None past the end. */
    function GetInput(index: nat): (r: Option<int>)
      reads this
      ensures r.None? <==> index >= |inputs|
      ensures r.Some? ==> r.value == inputs[index]
    {
      if index < |inputs| then Some(inputs[index]) else None
    }

    /** Lowers every gate, in order, into one constraint over a snapshot of the inputs. */
    method Compile() returns (r1cs: R1cs.R1CS)
      requires AllInRange(gates, |inputs|)
      ensures fresh(r1cs)
      ensures r1cs.variables == Snapshot(inputs)
      ensures |r1cs.constraints| == |gates|
      ensures forall i :: 0 <= i < |gates| ==> r1cs.constraints[i] == Lower(gates[i], r1cs.variables)
    {
      r1cs := new R1cs.R1CS();
      r1cs.variables := Snapshot(inputs);
      for i := 0 to |gates|
        invariant r1cs.variables == Snapshot(inputs)
        invariant |r1cs.constraints| == i
        invariant forall j :: 0 <= j < i ==> r1cs.constraints[j] == Lower(gates[j], r1cs.variables)
      {
        var vars := r1cs.variables;
        match gates[i] {
          case Add(a, b, out) =>
            r1cs.AddConstraint([(vars[a], 1)], [(vars[b], 1)], [(vars[out], 1)], R1cs.Add);
          case Mul(a, b, out) =>
            r1cs.AddConstraint([(vars[a], 1)], [(vars[b], 1)], [(vars[out], 1)], R1cs.Mul);
          case Hash(a, b, out) =>
            r1cs.AddConstraint([(vars[a], 1)], [(vars[b], 1)], [(vars[out], 1)], R1cs.Hash);
        }
      }
    }

    /** Compiles the circuit, evaluates it, and produces the proof byte.
        The result is valid iff every gate's claim holds on the inputs;
        the declared outputs are not consulted. */
    method GenerateProof() returns (isValid: bool, proofData: seq<byte>)
      requires AllInRange(gates, |inputs|)
      ensures isValid <==> AllGatesHold(gates, inputs, hashFunction)
      ensures proofData == [EncodeValidity(isValid)]
      ensures VerifyProof(proofData) == isValid
    {
      var r1cs := Compile();
      var failedAt;
      isValid, failedAt := r1cs.IsSatisfied(Checker(hashFunction));
      CompiledPassIffGatesHold(gates, inputs, hashFunction, r1cs.constraints);
      proofData := [EncodeValidity(isValid)];
    }
  }
}
