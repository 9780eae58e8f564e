/**
 * The two-qubit register of the quantum-computing scene. Every gate is a pure
 * map over the list of qubits that copies each record and replaces some of its
 * amplitude fields; nothing else about a qubit ever changes.
 */
module QuantumRegister {
  import opened Wrappers

  datatype Qubit = Qubit(
    id: int,
    x: real, y: real, z: real,
    alpha: real,            // amplitude of |0⟩
    beta: real,             // amplitude of |1⟩
    isEntangled: bool,
    targetId: Option<int>,
    color: string,
    name: string)

  /** The probabilities drawn for a qubit: `Math.pow(alpha, 2)` and `Math.pow(beta, 2)`. */
  function Prob0(q: Qubit): real { q.alpha * q.alpha }

  function Prob1(q: Qubit): real { q.beta * q.beta }

  /** `Math.sqrt(2)`: a positive number whose square is 2. */
  predicate IsRootTwo(root2: real) {
    root2 > 0.0 && root2 * root2 == 2.0
  }

  /** Two records describe the same qubit: same id, place, colour and name. */
  predicate SameQubit(a: Qubit, b: Qubit) {
    a.id == b.id && a.x == b.x && a.y == b.y && a.z == b.z && a.color == b.color && a.name == b.name
  }

  /** A qubit in |0⟩, unentangled. */
  function Ground(id: int, x: real, color: string, name: string): Qubit {
    Qubit(id, x, 0.0, 0.0, 1.0, 0.0, false, None, color, name)
  }

  /** The register the scene starts with, and the one reset rebuilds. */
  function InitialRegister(): (r: seq<Qubit>)
    ensures |r| == 2 && r[0].id == 1 && r[1].id == 2
    ensures forall i :: 0 <= i < |r| ==>
      r[i].alpha == 1.0 && r[i].beta == 0.0 && !r[i].isEntangled && r[i].targetId == None
  {
    [Ground(1, -120.0, "#3b82f6", "Qubit 1"), Ground(2, 120.0, "#ef4444", "Qubit 2")]
  }

  /** The register after `resetQubits`, with the cleared `isObserving` flag. */
  datatype Scene = Scene(qubits: seq<Qubit>, isObserving: bool)

  function Reset(): (s: Scene)
    ensures s.qubits == InitialRegister() && !s.isObserving
  {
    Scene(InitialRegister(), false)
  }

  /** The Hadamard gate on one qubit if it has the given id. */
  function HadamardOn(q: Qubit, id: int, root2: real): Qubit
    requires root2 != 0.0
  {
    if q.id == id then q.(alpha := (q.alpha + q.beta) / root2, beta := (q.alpha - q.beta) / root2) else q
  }

  /** `applyHadamard(id)`. */
  function Hadamard(qs: seq<Qubit>, id: int, root2: real): (r: seq<Qubit>)
    requires root2 != 0.0
    ensures |r| == |qs|
    ensures forall i :: 0 <= i < |qs| ==> SameQubit(r[i], qs[i]) && r[i].isEntangled == qs[i].isEntangled
    ensures forall i :: 0 <= i < |qs| && qs[i].id != id ==> r[i] == qs[i]
    ensures forall i :: 0 <= i < |qs| && qs[i].id == id ==>
      r[i].alpha == (qs[i].alpha + qs[i].beta) / root2 && r[i].beta == (qs[i].alpha - qs[i].beta) / root2
  {
    seq(|qs|, i requires 0 <= i < |qs| => HadamardOn(qs[i], id, root2))
  }

  /** (α+β)/√2 and (α−β)/√2 taken twice give back α and β. */
  lemma HadamardTwiceOne(a: real, b: real, root2: real)
    requires IsRootTwo(root2)
    ensures ((a + b) / root2 + (a - b) / root2) / root2 == a
    ensures ((a + b) / root2 - (a - b) / root2) / root2 == b
  {
    var x := (a + b) / root2;
    var y := (a - b) / root2;
    assert x + y == 2.0 * a / root2;
    assert (2.0 * a / root2) / root2 == 2.0 * a / (root2 * root2);
  }

  /** (α+β)/√2 and (α−β)/√2 have the same α² + β² as α and β. */
  lemma HadamardNormOne(a: real, b: real, root2: real)
    requires IsRootTwo(root2)
    ensures ((a + b) / root2) * ((a + b) / root2) + ((a - b) / root2) * ((a - b) / root2) == a * a + b * b
  {
    var x := (a + b) / root2;
    var y := (a - b) / root2;
    assert x * root2 == a + b;
    assert y * root2 == a - b;
    assert (x * root2) * (x * root2) + (y * root2) * (y * root2) == 2.0 * (a * a + b * b);
    assert (x * x + y * y) * (root2 * root2) == 2.0 * (a * a + b * b);
  }

  /** The Hadamard gate is its own inverse. */
  lemma HadamardInvolution(qs: seq<Qubit>, id: int, root2: real)
    requires IsRootTwo(root2)
    ensures Hadamard(Hadamard(qs, id, root2), id, root2) == qs
  {
    var r := Hadamard(Hadamard(qs, id, root2), id, root2);
    forall i | 0 <= i < |qs|
      ensures r[i] == qs[i]
    {
      HadamardTwiceOne(qs[i].alpha, qs[i].beta, root2);
    }
  }

  /** The Hadamard gate keeps every qubit's α² + β². */
  lemma HadamardPreservesNorm(qs: seq<Qubit>, id: int, root2: real)
    requires IsRootTwo(root2)
    ensures var r := Hadamard(qs, id, root2);
      forall i :: 0 <= i < |qs| ==> Prob0(r[i]) + Prob1(r[i]) == Prob0(qs[i]) + Prob1(qs[i])
  {
    var r := Hadamard(qs, id, root2);
    forall i | 0 <= i < |qs|
      ensures Prob0(r[i]) + Prob1(r[i]) == Prob0(qs[i]) + Prob1(qs[i])
    {
      HadamardNormOne(qs[i].alpha, qs[i].beta, root2);
    }
  }

  /** The partner the Bell-state gate points a qubit at. */
  function Partner(id: int): int {
    if id == 1 then 2 else 1
  }

  /** `applyEntangle`. */
  function Entangle(qs: seq<Qubit>, root2: real): (r: seq<Qubit>)
    requires root2 != 0.0
    ensures |r| == |qs|
    ensures forall i :: 0 <= i < |qs| ==> SameQubit(r[i], qs[i]) && r[i].targetId == Some(Partner(qs[i].id))
  {
    seq(|qs|, i requires 0 <= i < |qs| =>
      qs[i].(isEntangled := true, alpha := 1.0 / root2, beta := 1.0 / root2, targetId := Some(Partner(qs[i].id))))
  }

  /** After entangling, every qubit is entangled in the equal superposition: each basis state has probability ½. */
  lemma EntangleBellState(qs: seq<Qubit>, root2: real)
    requires IsRootTwo(root2)
    ensures var r := Entangle(qs, root2);
      forall i :: 0 <= i < |r| ==>
        r[i].isEntangled && r[i].alpha == r[i].beta && Prob0(r[i]) == 0.5 && Prob1(r[i]) == 0.5
  {
    var r := Entangle(qs, root2);
    forall i | 0 <= i < |r|
      ensures r[i].isEntangled && r[i].alpha == r[i].beta && Prob0(r[i]) == 0.5 && Prob1(r[i]) == 0.5
    {
      assert r[i].alpha == 1.0 / root2 == r[i].beta;
      HalfSquare(root2);
    }
  }

  /** On the initial register (ids 1 and 2) the Bell-state gate points each qubit at the other one. */
  lemma EntanglePairsQubits(root2: real)
    requires root2 != 0.0
    ensures var r := Entangle(InitialRegister(), root2);
      r[0].id == 1 && r[0].targetId == Some(2) && r[1].id == 2 && r[1].targetId == Some(1)
  {
    var q := InitialRegister();
    assert q[0].id == 1 && q[1].id == 2;
  }

  /** (1/√2)² = ½. */
  lemma HalfSquare(root2: real)
    requires IsRootTwo(root2)
    ensures (1.0 / root2) * (1.0 / root2) == 0.5
  {
    var k := 1.0 / root2;
    assert k * root2 == 1.0;
    assert (k * root2) * (k * root2) == 1.0;
    assert (k * k) * (root2 * root2) == 1.0;
  }

  /** `Math.random() > 0.5 ? 0 : 1`. */
  function Outcome(draw: real): (b: int)
    ensures b == 0 || b == 1
    ensures b == 0 <==> draw > 0.5
  {
    if draw > 0.5 then 0 else 1
  }

  /** `applyMeasure` with the one random draw it makes. */
  function Measure(qs: seq<Qubit>, draw: real): (r: seq<Qubit>)
    ensures |r| == |qs|
    ensures forall i :: 0 <= i < |qs| ==> SameQubit(r[i], qs[i])
  {
    var outcome := Outcome(draw);
    seq(|qs|, i requires 0 <= i < |qs| =>
      qs[i].(alpha := if outcome == 0 then 1.0 else 0.0, beta := if outcome == 0 then 0.0 else 1.0,
             isEntangled := false, targetId := None))
  }

  /**
   * Measuring puts every qubit into the same basis state, |0⟩ exactly when the
   * draw exceeds ½; it clears entanglement, and the probabilities sum to 1.
   */
  lemma MeasureCollapses(qs: seq<Qubit>, draw: real)
    ensures var r := Measure(qs, draw);
      forall i :: 0 <= i < |r| ==>
        !r[i].isEntangled && r[i].targetId == None &&
        Prob0(r[i]) + Prob1(r[i]) == 1.0 &&
        (Prob0(r[i]) == 1.0 <==> draw > 0.5) &&
        r[i].alpha == r[0].alpha && r[i].beta == r[0].beta
  {
  }
}
