/**
 * The four approaches of the junction, the two signal colours, and the
 * fixed table that maps each (direction, colour) pair onto the flat phase
 * index 0..7 used by the signal actuator (src/logic.py:29-57).
 */
module Phases {

  datatype Direction = North | East | South | West

  datatype Color = Green | Yellow

  /** A phase type: NORTH_GREEN, NORTH_YELLOW, ..., WEST_YELLOW. */
  datatype Phase = Phase(direction: Direction, color: Color)

  /** PHASE_ORDER: the rotation order north, east, south, west. */
  const PhaseOrder: seq<Direction> := [North, East, South, West]

  /** Position of a direction in PhaseOrder. */
  function Rank(d: Direction): (k: nat)
    ensures k < |PhaseOrder| && PhaseOrder[k] == d
  {
    match d
    case North => 0
    case East => 1
    case South => 2
    case West => 3
  }

  /** DIRECTION_TO_GREEN_PHASE. */
  function GreenIndex(d: Direction): nat
  {
    match d
    case North => 0
    case East => 2
    case South => 4
    case West => 6
  }

  /** DIRECTION_TO_YELLOW_PHASE. */
  function YellowIndex(d: Direction): nat
  {
    match d
    case North => 1
    case East => 3
    case South => 5
    case West => 7
  }

  /** The actuator index of a phase type. */
  function PhaseIndex(p: Phase): (i: nat)
    ensures i < 8
    ensures p.color == Green <==> i % 2 == 0
  {
    if p.color == Green then GreenIndex(p.direction) else YellowIndex(p.direction)
  }

  /** The phase type behind an actuator index; the inverse of PhaseIndex. */
  function PhaseAt(i: nat): (p: Phase)
    requires i < 8
    ensures PhaseIndex(p) == i
  {
    Phase(PhaseOrder[i / 2], if i % 2 == 0 then Green else Yellow)
  }

  /** The k-th direction of PHASE_ORDER has green index 2k and yellow index 2k+1. */
  lemma OrderGivesIndices(k: nat)
    requires k < |PhaseOrder|
    ensures GreenIndex(PhaseOrder[k]) == 2 * k
    ensures YellowIndex(PhaseOrder[k]) == 2 * k + 1
    ensures Rank(PhaseOrder[k]) == k
  {
  }

  /** The eight (direction, colour) pairs map one-to-one onto 0..7. */
  lemma PhaseIndexBijective(p: Phase, q: Phase)
    ensures PhaseAt(PhaseIndex(p)) == p
    ensures PhaseIndex(p) == PhaseIndex(q) ==> p == q
  {
  }

  /** A value per approach: the model of the source's dicts keyed by the four directions. */
  datatype PerDirection<T> = PerDirection(north: T, east: T, south: T, west: T)
  {
    function At(d: Direction): T
    {
      match d
      case North => north
      case East => east
      case South => south
      case West => west
    }

    /** The dict after `m[d] = v`. */
    function With(d: Direction, v: T): (r: PerDirection<T>)
      ensures r.At(d) == v
      ensures forall e :: e != d ==> r.At(e) == At(e)
    {
      match d
      case North => this.(north := v)
      case East => this.(east := v)
      case South => this.(south := v)
      case West => this.(west := v)
    }
  }

  /** A dict with the same value under every direction. */
  function Uniform<T>(v: T): (r: PerDirection<T>)
    ensures forall d :: r.At(d) == v
  {
    PerDirection(v, v, v, v)
  }
}
