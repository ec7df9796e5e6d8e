/**
 * The six axis directions of the world. `Direction` itself is not part of
 * this model; its numeric id is taken to be its declaration order.
 */
module Directions {

  datatype Direction = Down | Up | North | South | West | East

  /** The numeric id of a direction, used to index per-face data. */
  function Id(d: Direction): (r: nat)
    ensures r < 6
  {
    match d
    case Down => 0
    case Up => 1
    case North => 2
    case South => 3
    case West => 4
    case East => 5
  }
}

/** The faces of a block, each tied to the direction it looks in. */
module BlockFaces {
  import Directions

  datatype BlockFace = Bottom | Top | North | South | West | East

  /** The direction a face corresponds to. */
  function DirectionOf(f: BlockFace): (d: Directions.Direction)
    ensures f == Bottom <==> d == Directions.Down
    ensures f == Top <==> d == Directions.Up
  {
    match f
    case Bottom => Directions.Down
    case Top => Directions.Up
    case North => Directions.North
    case South => Directions.South
    case West => Directions.West
    case East => Directions.East
  }

  /** The face on the other side of the block. */
  function Opposite(f: BlockFace): (r: BlockFace)
    ensures r != f
  {
    match f
    case Bottom => Top
    case Top => Bottom
    case North => South
    case South => North
    case West => East
    case East => West
  }

  /** Distinct faces look in distinct directions. */
  lemma DirectionOfInjective(f: BlockFace, g: BlockFace)
    ensures DirectionOf(f) == DirectionOf(g) ==> f == g
  {
  }

  /** Taking the opposite twice gives the face back. */
  lemma OppositeInvolution(f: BlockFace)
    ensures Opposite(Opposite(f)) == f
  {
  }

  /** The opposite pairs are exactly bottom/top, north/south and west/east. */
  lemma OppositePairs(f: BlockFace, g: BlockFace)
    ensures Opposite(f) == g <==>
      {f, g} == {Bottom, Top} || {f, g} == {North, South} || {f, g} == {West, East}
  {
  }
}
