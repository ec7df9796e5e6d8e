/**
 * One 16x16x16 cube of block states. The palette encoding is not part of
 * this model: a section is the map from local cell to block state that the
 * palette represents, and a cell never set holds air.
 */
module Sections {
  import opened Wrappers
  import opened Blocks

  /** One coordinate inside a section: a section is 16 cells wide on each axis. */
  type Coord = c: int | 0 <= c < 16

  /** A cell of a section; only the 16 x 16 x 16 cells of the cube exist. */
  datatype LocalPos = LocalPos(x: Coord, y: Coord, z: Coord)

  datatype ChunkSection = ChunkSection(y: int, cells: map<LocalPos, KryptonBlock>) {

    /** The block state at a cell; air for a cell never set. */
    function Get(p: LocalPos): (r: KryptonBlock)
      ensures p !in cells ==> r == AIR
    {
      if p in cells then cells[p] else AIR
    }

    /** The section after writing `b` at `p`; every other cell and the section's Y stay. */
    function Set(p: LocalPos, b: KryptonBlock): (r: ChunkSection)
      ensures r.y == y
      ensures r.Get(p) == b
      ensures forall q :: q != p ==> r.Get(q) == Get(q)
    {
      ChunkSection(y, cells[p := b])
    }

    /** No cell holds a non-air state (the maintained non-air count is zero). */
    predicate IsEmpty()
      ensures IsEmpty() <==> forall q :: Get(q).isAir
    {
      assert forall q | q in cells :: Get(q) == cells[q];
      forall q | q in cells :: cells[q].isAir
    }
  }

  /** A freshly allocated section at section coordinate `y`: all air. */
  function NewSection(y: int): (s: ChunkSection)
    ensures s.y == y
    ensures forall q :: s.Get(q) == AIR
    ensures s.IsEmpty()
  {
    ChunkSection(y, map[])
  }

  /** A section is worth reading from: present and not empty. */
  predicate Occupied(o: Option<ChunkSection>) {
    o.Some? && !o.value.IsEmpty()
  }
}
