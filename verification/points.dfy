/**
  The three record types the emitter renders: a Cartesian target with four
  external axes, a joint-space target with four external axes, and a six-value
  frame used for base and tool definitions. Every field defaults to zero.
  Each record converts to and from the list of its field values in template order.
 */
module Points {
  import opened Decimal

  datatype CartesianPoint = CartesianPoint(
    x: int, y: int, z: int, a: int, b: int, c: int,
    e1: int, e2: int, e3: int, e4: int)

  datatype JointPoint = JointPoint(
    a1: int, a2: int, a3: int, a4: int, a5: int, a6: int,
    e1: int, e2: int, e3: int, e4: int)

  /** A frame (the source's `Position`): linear offset and orientation, no external axes. */
  datatype Position = Position(x: int, y: int, z: int, a: int, b: int, c: int)

  /** `CartesianPoint()` with every field left at its default. */
  const CartesianOrigin: CartesianPoint := CartesianPoint(0, 0, 0, 0, 0, 0, 0, 0, 0, 0)

  /** `JointPoint()` with every field left at its default. */
  const JointOrigin: JointPoint := JointPoint(0, 0, 0, 0, 0, 0, 0, 0, 0, 0)

  /** `Position()` with every field left at its default. */
  const PositionOrigin: Position := Position(0, 0, 0, 0, 0, 0)

  /** The emitter's default home pose: A2 -90, A3 90, A5 90, everything else 0. */
  const DefaultHome: JointPoint := JointPoint(0, -90, 90, 0, 90, 0, 0, 0, 0, 0)

  function CartesianFromValues(vs: seq<int>): CartesianPoint
    requires |vs| == 10
  {
    CartesianPoint(vs[0], vs[1], vs[2], vs[3], vs[4], vs[5], vs[6], vs[7], vs[8], vs[9])
  }

  /** The fields of `p` in the order X, Y, Z, A, B, C, E1, E2, E3, E4. */
  function CartesianValues(p: CartesianPoint): (vs: seq<int>)
    ensures |vs| == 10 && CartesianFromValues(vs) == p
    ensures vs[0] == p.x && vs[5] == p.c && vs[9] == p.e4
  {
    [p.x, p.y, p.z, p.a, p.b, p.c, p.e1, p.e2, p.e3, p.e4]
  }

  function JointFromValues(vs: seq<int>): JointPoint
    requires |vs| == 10
  {
    JointPoint(vs[0], vs[1], vs[2], vs[3], vs[4], vs[5], vs[6], vs[7], vs[8], vs[9])
  }

  /** The fields of `j` in the order A1..A6, E1..E4. */
  function JointValues(j: JointPoint): (vs: seq<int>)
    ensures |vs| == 10 && JointFromValues(vs) == j
    ensures vs[0] == j.a1 && vs[5] == j.a6 && vs[9] == j.e4
  {
    [j.a1, j.a2, j.a3, j.a4, j.a5, j.a6, j.e1, j.e2, j.e3, j.e4]
  }

  function PositionFromValues(vs: seq<int>): Position
    requires |vs| == 6
  {
    Position(vs[0], vs[1], vs[2], vs[3], vs[4], vs[5])
  }

  /** The fields of `f` in the order X, Y, Z, A, B, C. */
  function PositionValues(f: Position): (vs: seq<int>)
    ensures |vs| == 6 && PositionFromValues(vs) == f
    ensures vs[0] == f.x && vs[5] == f.c
  {
    [f.x, f.y, f.z, f.a, f.b, f.c]
  }

  /** Every slot of a record built with no arguments is written as `0`. */
  lemma DefaultsAreZero()
    ensures forall i :: 0 <= i < 10 ==> IntToString(CartesianValues(CartesianOrigin)[i]) == "0"
    ensures forall i :: 0 <= i < 10 ==> IntToString(JointValues(JointOrigin)[i]) == "0"
    ensures forall i :: 0 <= i < 6 ==> IntToString(PositionValues(PositionOrigin)[i]) == "0"
  {
  }
}
