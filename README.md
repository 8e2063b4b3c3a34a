# R1CS circuits and Merkle paths, modelled in Dafny

This project models the core of a small Rust "SNARK" playground. Add, Mul and
Hash gates over integer inputs are lowered into a Rank-1 Constraint System
(R1CS). Every constraint is checked against the input values, and the
validity bit is encoded as a single proof byte. Beside the circuits, the
project builds Merkle roots and authentication paths over integer leaves.

Modules, one per source file:

- `HashFunctions` (`hash_function.dfy`): the hash capability as a function value `(int, int) -> int`, and the two additive reference hashes.
- `R1cs` (`r1cs.dfy`): variables, operations, constraints. The linear-combination value is a recursive sum. `R1CS` is a class whose methods append constraints and evaluate them in order, stopping at the first one that fails.
- `Circuits` (`circuit.dfy`): the `Circuit` builder class (inputs, gates, declared outputs, optional hash). Compilation is a loop that appends one constraint per gate. `GenerateProof` is proved to report validity exactly when every gate's claim holds on the inputs. The validity byte codec is a pair of pure functions.
- `Merkle` (`merkle.dfy`): the level step, the recursive root and path specifications, and a replay fold. The imperative `ComputeRoot` and `MerklePath` loops are proved equal to those specifications. The main lemma: replaying a leaf's path reproduces the root, for any hash.
- `Scenarios` (`scenarios.dfy`): the driver's two addition scenarios, a multiplication scenario, and the four-leaf Merkle example.

Arbitrary-precision `BigInt` is Dafny `int`, so nothing overflows. Indices (`usize`) are `nat`. The Rust index panics become `requires` clauses: a gate index past the inputs at compile time, `nodes[0]` on empty leaves, and `proof_data[0]` on an empty proof file.

The model follows the code where it departs from the usual description of an authentication path. That description gives one entry per level, i.e. ceil(log2 n) entries. The code skips any level where the current node is a lone trailing node with no sibling. `Merkle.PathLengthAtMostLevels` proves the path has at most `Levels(n)` entries. `Merkle.LevelsIsCeilLog2` proves `Levels(n)` is ceil(log2 n). `Merkle.PathLengthPowerOfTwo` proves the count is exact when n is a power of two. `Merkle.PathShorterThanLevelsWithOddTail` gives three leaves where the path is shorter. The flag is described as "sibling is left", but the code pushes `current_index % 2 == 0`. So `true` means the current node is the left operand, and replay computes `hash(current, sibling)` for it.

## Model

| member | source | states |
|---|---|---|
| HashFunctions.InstancesAgree | src/hash_function.rs:9-21 | `SimpleAddHash` and `CustomHash` are both `a + b`, so they agree on every pair |
| HashFunctions.InstancesCommutative | src/hash_function.rs:10-20 | both reference hashes are commutative |
| R1cs.LinearValueBasics | src/r1cs.rs:62-76 | an empty side evaluates to 0; a single term evaluates to value * coefficient |
| R1cs.PassesUnitSides | src/r1cs.rs:62-111 | a constraint whose three sides are single coefficient-1 terms passes iff, by tag, l+r==o, l*r==o or hash(l,r)==o on the variables' values |
| R1cs.LinearValueAppend | src/r1cs.rs:62-76 | a side's value is additive over concatenation of its terms, so summation order is irrelevant |
| R1cs.AllPassAppend | src/r1cs.rs:61-113 | a list extended by one constraint passes iff the old list passes and the new constraint passes |
| R1cs.R1CS.constructor | src/r1cs.rs:35-40 | a new system has no variables and no constraints |
| R1cs.R1CS.AddConstraint | src/r1cs.rs:42-55 | exactly one constraint with the given sides and tag is appended; earlier constraints and `variables` are unchanged |
| R1cs.R1CS.IsSatisfied | src/r1cs.rs:57-114 | returns true iff every constraint passes by its tag (Add: l+r==o, Mul: l*r==o, Hash: hash(l,r)==o), true on an empty list; on false, reports the first failing index, and all earlier constraints pass; reads only the constraints |
| Circuits.DefaultHashIsAdditive | src/circuit.rs:43-49 | with no hash configured, hashing equals `SimpleAddHash`, and equals configuring either reference hash |
| Circuits.Snapshot | src/circuit.rs:57-65 | the compiled variables are one per input, the i-th having index i and value inputs[i] |
| Circuits.LowerPassesIffGateHolds | src/circuit.rs:67-95 | a gate's compiled constraint (unit-coefficient sides a, b, out with the gate's tag) passes under the checker closure iff x[a]+x[b]==x[out], x[a]*x[b]==x[out], or apply_hash(x[a],x[b])==x[out] by gate kind |
| Circuits.CompiledPassIffGatesHold | src/circuit.rs:67-95 | a list of compiled gates passes the evaluator iff every gate's claim holds on the inputs |
| Circuits.EncodeValidity | src/circuit.rs:97-99 | the validity bit is written as byte 1 or 0, and reading it back yields the original bit |
| Circuits.VerifyProof | src/circuit.rs:103-108 | requires a non-empty proof; a first byte of 0 or 1 is recovered from the result, any larger byte reads as invalid, later bytes are ignored |
| Circuits.Checker | src/circuit.rs:89-95 | the evaluator's hash closure: addition (`SimpleAddHash`) when no hash is configured, otherwise the configured hash |
| Circuits.ValidityRoundTrip | src/circuit.rs:103-108 | reading a proof whose first byte encodes a bit returns that bit, whatever bytes follow |
| Circuits.Circuit.constructor | src/circuit.rs:20-27 | a new circuit has empty inputs, gates and outputs and stores the given optional hash |
| Circuits.Circuit.AddInput | src/circuit.rs:29-33 | returns the previous input count and appends the value; `GetInput` at that index yields it; earlier inputs, gates and outputs unchanged |
| Circuits.Circuit.AddGate | src/circuit.rs:35-37 | appends the gate, unvalidated; inputs and outputs unchanged |
| Circuits.Circuit.SetOutput | src/circuit.rs:39-41 | appends the value to outputs; inputs and gates unchanged |
| Circuits.Circuit.ApplyHash | src/circuit.rs:43-49 | `a + b` when no hash is configured, otherwise the configured hash of a and b; always equal to the evaluator closure `Checker` of the same configuration |
| Circuits.Circuit.GetInput | src/circuit.rs:51-53 | None exactly when the index is at or past the input count, otherwise the input at that index |
| Circuits.Circuit.Compile | src/circuit.rs:56-88 | requires every gate index below the input count; the result's variables are the input snapshot and it has one constraint per gate, in gate order, each the gate lowered with coefficient 1 and the gate's tag |
| Circuits.Circuit.GenerateProof | src/circuit.rs:55-99 | validity is true iff every gate's claim holds on the inputs (outputs are not consulted); the proof is the single encoded byte, and reading it back gives the validity |
| Merkle.Step | src/merkle.rs:56-65 | a level of n nodes becomes ceil(n/2) nodes: element k is hash(nodes[2k], nodes[2k+1]) when both exist, else nodes[2k] unhashed |
| Merkle.RootOfOne | src/merkle.rs:53-68 | a single leaf is its own root |
| Merkle.RootOfTwo | src/merkle.rs:53-68 | for any hash, leaves [a,b] have root hash(a,b) |
| Merkle.RootOfFour | src/merkle.rs:53-68 | for any hash, leaves [a,b,c,d] have root hash(hash(a,b), hash(c,d)) |
| Merkle.RootOfThree | src/merkle.rs:53-68 | for any hash, leaves [a,b,c] have root hash(hash(a,b), c): the odd tail is passed up unhashed |
| Merkle.ComputeRoot | src/merkle.rs:53-68 | for non-empty leaves, the reduction loop ends and returns the recursive root |
| Merkle.NewTree | src/merkle.rs:11-18 | the tree keeps the leaves and hash unchanged, and its root is the recursive root of the leaves |
| Merkle.MerklePath | src/merkle.rs:20-51 | the returned path equals the recursive path specification: per level, sibling i+1 or i-1 recorded with flag "i is even" only when in range, then i becomes i/2 |
| Merkle.ReplayReproducesRoot | src/merkle.rs:20-68 | for any hash and index < number of leaves, folding the path from the leaf (flag true: hash(cur, sib); false: hash(sib, cur)) reproduces the root |
| Merkle.PathOfTreeReplaysToRoot | src/merkle.rs:11-51 | for a tree built by `NewTree` and a leaf index in range, replaying the path gives the tree's root |
| Merkle.ReplayIgnoresFlagsWhenCommutative | src/merkle.rs:44 | with a commutative hash, replay gives the same value for any flags over the same sibling values |
| Merkle.PathLengthAtMostLevels | src/merkle.rs:25-49 | the path has at most one entry per level |
| Merkle.LevelsStep | src/merkle.rs:25-48 | one round of the reduction loop (one `Step`) uses up exactly one of `Levels(n)` levels, so the loops run `Levels(n)` rounds |
| Merkle.LevelsIsCeilLog2 | src/merkle.rs:25 | Levels(n) is ceil(log2 n) for n >= 2 |
| Merkle.PathLengthPowerOfTwo | src/merkle.rs:37-45 | for a power-of-two leaf count k levels deep, every level records a sibling and the path has exactly k entries |
| Merkle.PathShorterThanLevelsWithOddTail | src/merkle.rs:37-45 | for three leaves and index 2, the first level has no sibling and the path is the single entry (hash(a,b), false) |
| Scenarios.AdditionProof | src/main.rs:9-23 | inputs 10, 20, 30 with Add(0,1,2): the proof reads back valid |
| Scenarios.AdditionProofFail | src/main.rs:25-39 | inputs 10, 20, 31 with Add(0,1,2): the proof reads back invalid |
| Scenarios.SingleGateValidity | src/circuit.rs:67-80 | a single Add gate holds iff c == a + b, a single Mul gate iff c == a * b |
| Scenarios.MultiplicationScenario | src/circuit.rs:75-80 | 10 * 20 == 200 satisfies a Mul gate; 2000 does not |
| Scenarios.MerkleExample | src/merkle.rs:11-68 | leaves [10,20,50,80], additive hash: root 160, path of index 2 is [(80,true),(30,false)], and replay from 50 gives 160 |
| Scenarios.AdditiveReplayIgnoresFlags | src/hash_function.rs:9-21 | with either reference hash, replay succeeds under either flag orientation |

## Left out

- File I/O: `R1CS::save_to_binary` (bincode serialisation), creating and writing the proof file in `generate_proof`, and reading it in `verify_proof`. The file contents are modelled as a `seq<byte>`, and only the bit-to-byte mapping and reading the first byte are kept.
- Failures of file creation, writing or reading (the `expect` panics) are external effects and are not modelled.
- The `println!` diagnostics. `IsSatisfied` instead returns the index of the first failing constraint; the printed computed/expected values are not modelled.
- `Box<dyn HashFunction>` and generic `H` dispatch, and `Clone`: replaced by a function value and value semantics. Because `MerkleTree` is a value, `merkle_path` cannot change its root or leaves.
- The `num_bigint` internals: `BigInt` is Dafny `int`. `usize` indices are `nat`; the only `usize` arithmetic is `current_index + 1` on an even index, `- 1` on an odd one and `/ 2`, none of which can wrap.
- Circuits.Circuit.Compile and Circuits.Circuit.GenerateProof: the out-of-range gate index that panics in Rust is a precondition of both (every gate index below the input count), not a modelled failure path.
- Circuits.VerifyProof: an empty proof file, which panics in Rust, is excluded by a precondition.
- Merkle.NewTree: empty leaves, which panic in `compute_root`, are excluded by a precondition.
- The unused imports (`BigUint`, `std::process::Output`) have no behaviour.
