/** The numeric payloads that cross the boundary between the simulation's
    internal units and an external calculator's units, and the unit
    collaborators the driver calls but does not define.

    A numeric payload is either a single number (a potential) or a numpy
    array flattened to a sequence (positions, cell, forces, stress).
    Floating point is abstracted to `real`. */
module Units {

  /** The physical dimension passed as the first argument of a conversion. */
  datatype Family = Length | Energy | Force

  /** Unit names used by the finite-temperature driver. */
  const Angstrom: string := "angstrom"
  const Electronvolt: string := "electronvolt"
  const EvPerAngstrom: string := "ev/ang"

  /** A scalar or a (flattened) array of reals. */
  datatype Quantity = Scalar(x: real) | Array(xs: seq<real>)

  /** Elementwise multiplication by a number, as numpy broadcasts `k * q`. */
  function Scale(q: Quantity, k: real): (r: Quantity)
    ensures r.Scalar? <==> q.Scalar?
    ensures r.Array? ==> |r.xs| == |q.xs|
  {
    match q
    case Scalar(x) => Scalar(k * x)
    case Array(xs) => Array(seq(|xs|, i requires 0 <= i < |xs| => k * xs[i]))
  }

  /** Every entry of `q` is zero. */
  predicate IsZero(q: Quantity) {
    match q
    case Scalar(x) => x == 0.0
    case Array(xs) => forall i :: 0 <= i < |xs| ==> xs[i] == 0.0
  }

  /** The external virial `-1 * stress * volume`: an intensive stress turned
      into an extensive, energy-dimensioned quantity of the same shape, with
      the sign flipped. */
  function StressToVirial(stress: Quantity, volume: real): (v: Quantity)
    ensures v.Scalar? <==> stress.Scalar?
    ensures stress.Scalar? ==> v.x == -(stress.x * volume)
    ensures stress.Array? ==> |v.xs| == |stress.xs|
    ensures stress.Array? ==>
      forall i :: 0 <= i < |stress.xs| ==> v.xs[i] == -(stress.xs[i] * volume)
    ensures IsZero(stress) ==> v == stress
  {
    Scale(Scale(stress, -1.0), volume)
  }

  /** The unit collaborators of the engine, left uninterpreted:
      `toUser(family, unit, q)` converts from internal units to `unit`,
      `toInternal(family, unit, q)` converts from `unit` to internal units,
      and `detUT3x3(cell)` is the determinant of an upper-triangular cell. */
  datatype Units = Units(
    toUser: (Family, string, Quantity) -> Quantity,
    toInternal: (Family, string, Quantity) -> Quantity,
    detUT3x3: Quantity -> real)

  /** A scalar stress S over a cell of volume V gives the virial -S*V,
      e.g. S = 2 and V = 100 give -200. */
  lemma StressVirialExample()
    ensures StressToVirial(Scalar(2.0), 100.0) == Scalar(-200.0)
  {
  }
}
