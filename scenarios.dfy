/** The demonstration scenarios of the driver program, and the concrete
    Merkle example, stated against the model. */
module Scenarios {
  import opened HashFunctions
  import opened Circuits
  import Merkle

  /** Inputs 10, 20 and a claimed sum 30 with one Add gate: the proof reads back valid. */
  method AdditionProof() returns (isValid: bool)
    ensures isValid
  {
    var circuit := new Circuit(None);
    var input1 := circuit.AddInput(10);
    var input2 := circuit.AddInput(20);
    var outputIndex := circuit.AddInput(30);
    circuit.AddGate(Add(input1, input2, outputIndex));
    circuit.SetOutput(30);
    var generated, proofData := circuit.GenerateProof();
    assert generated;
    isValid := VerifyProof(proofData);
  }

  /** The same circuit with a claimed sum 31: the proof reads back invalid. */
  method AdditionProofFail() returns (isValid: bool)
    ensures !isValid
  {
    var circuit := new Circuit(None);
    var input1 := circuit.AddInput(10);
    var input2 := circuit.AddInput(20);
    var outputIndex := circuit.AddInput(31);
    circuit.AddGate(Add(input1, input2, outputIndex));
    circuit.SetOutput(31);
    var generated, proofData := circuit.GenerateProof();
    assert !GateHolds(circuit.gates[0], circuit.inputs, None);
    assert !generated;
    isValid := VerifyProof(proofData);
  }

  /** A single Add gate over inputs a, b, c holds exactly when c == a + b,
      and a single Mul gate exactly when c == a * b, whatever the hash. */
  lemma SingleGateValidity(a: int, b: int, c: int, hashFunction: Option<HashFunction>)
    ensures AllGatesHold([Add(0, 1, 2)], [a, b, c], hashFunction) <==> c == a + b
    ensures AllGatesHold([Mul(0, 1, 2)], [a, b, c], hashFunction) <==> c == a * b
  {
    assert [Add(0, 1, 2)][0] == Add(0, 1, 2);
    assert [Mul(0, 1, 2)][0] == Mul(0, 1, 2);
  }

  /** The Mul demonstration: 10 * 20 == 200 holds and 2000 does not. */
  lemma MultiplicationScenario()
    ensures AllGatesHold([Mul(0, 1, 2)], [10, 20, 200], None)
    ensures !AllGatesHold([Mul(0, 1, 2)], [10, 20, 2000], None)
  {
    SingleGateValidity(10, 20, 200, None);
    SingleGateValidity(10, 20, 2000, None);
  }

  /** Leaves 10, 20, 50, 80 with the additive hash: the path of leaf 2 is
      [(80, true), (30, false)], and both the tree and the replay give 160. */
  method MerkleExample() returns (root: int, path: seq<Merkle.PathEntry>)
    ensures root == 160
    ensures path == [(80, true), (30, false)]
    ensures Merkle.Replay(SimpleAddHash, 50, path) == root
  {
    var tree := Merkle.NewTree([10, 20, 50, 80], SimpleAddHash);
    path := Merkle.MerklePath(tree, 2);
    root := tree.root;
    assert Merkle.Step(SimpleAddHash, [10, 20, 50, 80]) == [30, 130];
    assert Merkle.Step(SimpleAddHash, [30, 130]) == [160];
    assert Merkle.Root(SimpleAddHash, [10, 20, 50, 80]) == Merkle.Root(SimpleAddHash, [30, 130]);
    assert Merkle.Root(SimpleAddHash, [30, 130]) == Merkle.Root(SimpleAddHash, [160]);
    assert Merkle.PathOf(SimpleAddHash, [160], 0) == [];
    assert Merkle.PathOf(SimpleAddHash, [30, 130], 1) == [(30, false)];
    assert Merkle.PathOf(SimpleAddHash, [10, 20, 50, 80], 2) == [(80, true)] + [(30, false)];
    Merkle.ReplayReproducesRoot(SimpleAddHash, [10, 20, 50, 80], 2);
  }

  /** With either reference hash, a path replays to the same value whatever its flags say. */
  lemma AdditiveReplayIgnoresFlags(current: int, p: seq<Merkle.PathEntry>, q: seq<Merkle.PathEntry>)
    requires |p| == |q|
    requires forall i :: 0 <= i < |p| ==> p[i].0 == q[i].0
    ensures Merkle.Replay(SimpleAddHash, current, p) == Merkle.Replay(SimpleAddHash, current, q)
    ensures Merkle.Replay(CustomHash, current, p) == Merkle.Replay(CustomHash, current, q)
  {
    InstancesCommutative();
    Merkle.ReplayIgnoresFlagsWhenCommutative(SimpleAddHash, current, p, q);
    Merkle.ReplayIgnoresFlagsWhenCommutative(CustomHash, current, p, q);
  }
}
