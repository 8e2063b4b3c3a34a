/** A Rank-1 Constraint System: variable snapshots, constraints made of
    linear combinations, and the evaluator that checks every constraint. */
module R1cs {
  import opened HashFunctions

  /** A variable: its position among the inputs and the value it was given. */
  datatype Variable = Variable(index: nat, value: int)

  datatype Operation = Add | Mul | Hash

  /** One term of a linear combination: a variable snapshot and its coefficient. */
  type Term = (Variable, int)

  datatype Constraint = Constraint(
    left: seq<Term>,
    right: seq<Term>,
    output: seq<Term>,
    operation: Operation)

  /** The value of a linear combination: the sum of value * coefficient. */
  function LinearValue(lc: seq<Term>): int
  {
    if lc == [] then 0 else lc[0].0.value * lc[0].1 + LinearValue(lc[1..])
  }

  /** Whether one constraint holds, decided by its operation tag. */
  predicate Passes(c: Constraint, hash: HashFunction)
  {
    var l, r, o := LinearValue(c.left), LinearValue(c.right), LinearValue(c.output);
    match c.operation
    case Add => l + r == o
    case Mul => l * r == o
    case Hash => hash(l, r) == o
  }

  /** Every constraint of the list holds. */
  predicate AllPass(cs: seq<Constraint>, hash: HashFunction)
  {
    forall i :: 0 <= i < |cs| ==> Passes(cs[i], hash)
  }

  /** An empty side contributes 0, and a single term contributes value * coefficient. */
  lemma LinearValueBasics(v: Variable, k: int)
    ensures LinearValue([]) == 0
    ensures LinearValue([(v, k)]) == v.value * k
  {
  }

  /** A constraint whose sides are single unit-coefficient terms passes
      exactly when its tag's relation holds between the three variables' values. */
  lemma PassesUnitSides(l: Variable, r: Variable, o: Variable, operation: Operation, hash: HashFunction)
    ensures Passes(Constraint([(l, 1)], [(r, 1)], [(o, 1)], operation), hash) <==>
      match operation
      case Add => l.value + r.value == o.value
      case Mul => l.value * r.value == o.value
      case Hash => hash(l.value, r.value) == o.value
  {
    LinearValueBasics(l, 1);
    LinearValueBasics(r, 1);
    LinearValueBasics(o, 1);
  }

  /** The value of a linear combination is additive over concatenation,
      so the order in which the terms are summed does not matter. */
  lemma {:induction false} LinearValueAppend(a: seq<Term>, b: seq<Term>)
    ensures LinearValue(a + b) == LinearValue(a) + LinearValue(b)
  {
    if a == [] {
      assert a + b == b;
    } else {
      assert (a + b)[1..] == a[1..] + b;
      LinearValueAppend(a[1..], b);
    }
  }

  /** Appending one constraint keeps "all pass" exactly when the new one passes. */
  lemma {:induction false} AllPassAppend(cs: seq<Constraint>, c: Constraint, hash: HashFunction)
    ensures AllPass(cs + [c], hash) <==> AllPass(cs, hash) && Passes(c, hash)
  {
    if AllPass(cs + [c], hash) {
      forall i | 0 <= i < |cs| ensures Passes(cs[i], hash) {
        assert (cs + [c])[i] == cs[i];
      }
      assert (cs + [c])[|cs|] == c;
    }
  }

  class R1CS {
    var variables: seq<Variable>
    var constraints: seq<Constraint>

    /** A system with no variables and no constraints. */
    constructor ()
      ensures variables == [] && constraints == []
    {
      variables := [];
      constraints := [];
    }

    /** Appends exactly one constraint; nothing else changes. */
    method AddConstraint(left: seq<Term>, right: seq<Term>, output: seq<Term>, operation: Operation)
      modifies this
      ensures constraints == old(constraints) + [Constraint(left, right, output, operation)]
      ensures variables == old(variables)
    {
      constraints := constraints + [Constraint(left, right, output, operation)];
    }

    /** Checks the constraints in order and stops at the first that fails.
        `sat` is true iff every constraint passes; `failedAt` is the index of
        the first failing constraint (the one the diagnostic reports), or the
        number of constraints when all pass. Only the variable snapshots held
        by the constraints are read, never `variables`. */
    method IsSatisfied(hash: HashFunction) returns (sat: bool, failedAt: nat)
      ensures sat <==> AllPass(constraints, hash)
      ensures sat ==> failedAt == |constraints|
      ensures !sat ==> failedAt < |constraints| && !Passes(constraints[failedAt], hash)
      ensures forall j :: 0 <= j < failedAt && j < |constraints| ==> Passes(constraints[j], hash)
    {
      var i := 0;
      while i < |constraints|
        invariant 0 <= i <= |constraints|
        invariant forall j :: 0 <= j < i ==> Passes(constraints[j], hash)
      {
        var c := constraints[i];
        var leftValue := LinearValue(c.left);
        var rightValue := LinearValue(c.right);
        var outputValue := LinearValue(c.output);
        match c.operation {
          case Add =>
            var sum := leftValue + rightValue;
            if sum != outputValue {
              return false, i;
            }
          case Mul =>
            var product := leftValue * rightValue;
            if product != outputValue {
              return false, i;
            }
          case Hash =>
            var computedHash := hash(leftValue, rightValue);
            if computedHash != outputValue {
              return false, i;
            }
        }
        i := i + 1;
      }
      return true, i;
    }
  }
}
