/**
 * Section and light-section index arithmetic of a world's vertical extent
 * (the static helpers of `WorldUtil`). Every helper computes in Java `int`
 * arithmetic; each states what it equals when the world's section bounds are
 * small enough that nothing wraps around.
 */
module WorldUtil {
  import opened JavaInts

  /**
   * The two numbers every helper is computed from: the lowest section
   * coordinate of the world and one past its highest.
   */
  datatype HeightAccessor = HeightAccessor(minimumSection: Int32, maximumSection: Int32)

  /** Section bounds for which no helper wraps around (far beyond any real world). */
  predicate Bounded(w: HeightAccessor) {
    -0x400_0000 <= w.minimumSection <= w.maximumSection <= 0x400_0000
  }

  /** The highest section coordinate (inclusive). */
  function MaxSection(w: HeightAccessor): (r: Int32)
    ensures Bounded(w) ==> r == w.maximumSection - 1
  {
    Wrap32(w.maximumSection - 1)
  }

  /** The lowest section coordinate. */
  function MinSection(w: HeightAccessor): (r: Int32)
    ensures r == w.minimumSection
  {
    w.minimumSection
  }

  /** The highest section that carries light data: one above the highest block section. */
  function MaxLightSection(w: HeightAccessor): (r: Int32)
    ensures Bounded(w) ==> r == w.maximumSection
  {
    Wrap32(MaxSection(w) + 1)
  }

  /** The lowest section that carries light data: one below the lowest block section. */
  function MinLightSection(w: HeightAccessor): (r: Int32)
    ensures Bounded(w) ==> r == w.minimumSection - 1
  {
    Wrap32(MinSection(w) - 1)
  }

  /** The number of block sections. */
  function TotalSections(w: HeightAccessor): (r: Int32)
    ensures Bounded(w) ==> r == w.maximumSection - w.minimumSection
  {
    Wrap32(Wrap32(MaxSection(w) - MinSection(w)) + 1)
  }

  /** The number of light sections: two more than block sections. */
  function TotalLightSections(w: HeightAccessor): (r: Int32)
    ensures Bounded(w) ==> r == TotalSections(w) + 2
  {
    Wrap32(Wrap32(MaxLightSection(w) - MinLightSection(w)) + 1)
  }

  /** The lowest block Y: the first block of the lowest section. */
  function MinBlockY(w: HeightAccessor): (r: Int32)
    ensures Bounded(w) ==> r == 16 * MinSection(w)
  {
    Shl4(MinSection(w))
  }

  /** The highest block Y: the last block of the highest section. */
  function MaxBlockY(w: HeightAccessor): (r: Int32)
    ensures Bounded(w) ==> r == 16 * MaxSection(w) + 15
  {
    Or15(Shl4(MaxSection(w)))
  }

  /** The block range spans exactly sixteen blocks per section. */
  lemma BlockSpan(w: HeightAccessor)
    requires Bounded(w)
    ensures MaxBlockY(w) - MinBlockY(w) + 1 == 16 * TotalSections(w)
  {
  }
}
