/**
 * One chunk of the world (`KryptonChunk`): a column of optional sections,
 * the heightmaps over it, its light arrays and its bookkeeping counters.
 */
module Chunks {
  import opened Wrappers
  import opened JavaInts
  import opened Blocks
  import opened Sections
  import WorldUtil

  /** A chunk's coordinates in chunk units; the key of the cache and of the store. */
  datatype ChunkPosition = ChunkPosition(x: Int32, z: Int32)

  /** The two light channels. */
  datatype LightLayer = Sky | BlockLayer

  datatype HeightmapType =
    | WorldSurfaceWg | WorldSurface | OceanFloorWg | OceanFloor | MotionBlocking | MotionBlockingNoLeaves

  /** The heightmaps kept once world generation has placed its features. */
  const POST_FEATURES: set<HeightmapType> := {WorldSurface, OceanFloor, MotionBlocking, MotionBlockingNoLeaves}

  /** The contents of one heightmap: long words read from a document, or rebuilt by a column scan. */
  datatype HeightmapData = Stored(words: seq<int>) | Primed

  /** One recorded call `heightmap(kind).update(x, y, z, block)`. */
  datatype HeightmapUpdate = HeightmapUpdate(kind: HeightmapType, x: int, y: int, z: int, block: KryptonBlock)

  /**
   * One section's light nibble array: the filled-empty placeholder the light
   * engine starts from, or one read from a document (packed data, if any, and
   * the engine's state code).
   */
  datatype Nibble = FilledEmpty | Loaded(data: Option<seq<int>>, state: int)

  /** A sub-document carried through unmodified (the structures compound). */
  datatype Opaque = Opaque(tag: nat)

  /** What a chunk needs of its world: its vertical extent and whether it has sky light. */
  datatype World = World(heights: WorldUtil.HeightAccessor, hasSkylight: bool, minimumBuildHeight: int)

  predicate WellFormed(w: World) {
    WorldUtil.Bounded(w.heights)
  }

  /** The number of section slots in every chunk of the world. */
  function SectionCount(w: World): (r: int)
    ensures WellFormed(w) ==> r >= 0
  {
    WorldUtil.TotalSections(w.heights)
  }

  /** The number of light section slots in every chunk of the world. */
  function LightSectionCount(w: World): (r: int)
    ensures WellFormed(w) ==> r == SectionCount(w) + 2
  {
    WorldUtil.TotalLightSections(w.heights)
  }

  /** The slot of block Y `y`: `(y shr 4) - minSection`; `/` by 16 floors like `shr 4`. */
  function SectionIndex(w: World, y: int): (r: int)
    ensures WellFormed(w) ==>
      (0 <= r < SectionCount(w) <==> WorldUtil.MinBlockY(w.heights) <= y <= WorldUtil.MaxBlockY(w.heights))
  {
    y / 16 - WorldUtil.MinSection(w.heights)
  }

  /** The slot of section coordinate `sy`. */
  function SectionIndexFromY(w: World, sy: int): (r: int)
    ensures WellFormed(w) ==>
      (0 <= r < SectionCount(w) <==> WorldUtil.MinSection(w.heights) <= sy <= WorldUtil.MaxSection(w.heights))
  {
    sy - WorldUtil.MinSection(w.heights)
  }

  /** The cell of block (x, y, z) inside its section: `x and 15` etc.; `%` is Euclidean like `and 15`. */
  function Local(x: int, y: int, z: int): (p: LocalPos)
    ensures (x - p.x) % 16 == 0 && (y - p.y) % 16 == 0 && (z - p.z) % 16 == 0
  {
    LocalPos(x % 16, y % 16, z % 16)
  }

  /** Two block coordinates of one chunk address the same cell. */
  predicate SameCell(x: int, y: int, z: int, x': int, y': int, z': int) {
    x % 16 == x' % 16 && y == y' && z % 16 == z' % 16
  }

  /** The light arrays a chunk starts with: one filled-empty nibble per light section. */
  function FilledEmptyLight(w: World): (r: seq<Nibble>)
    requires WellFormed(w)
    ensures |r| == LightSectionCount(w)
    ensures forall k :: 0 <= k < |r| ==> r[k] == FilledEmpty
  {
    seq(LightSectionCount(w), _ => FilledEmpty)
  }

  /** The calls a changed block makes on the four heightmaps, in order. */
  function HeightmapFanOut(x: int, y: int, z: int, b: KryptonBlock): (r: seq<HeightmapUpdate>)
    ensures |r| == 4
    ensures forall k :: 0 <= k < 4 ==> r[k].x == x && r[k].y == y && r[k].z == z && r[k].block == b
    ensures {r[0].kind, r[1].kind, r[2].kind, r[3].kind} == POST_FEATURES
  {
    [ HeightmapUpdate(MotionBlocking, x, y, z, b),
      HeightmapUpdate(MotionBlockingNoLeaves, x, y, z, b),
      HeightmapUpdate(OceanFloor, x, y, z, b),
      HeightmapUpdate(WorldSurface, x, y, z, b) ]
  }

  /** Two reads agree, or both are some kind of air. */
  predicate SameOrBothAir(a: KryptonBlock, b: KryptonBlock) {
    a == b || (a.isAir && b.isAir)
  }

  class KryptonChunk {
    const world: World
    const position: ChunkPosition
    const sections: array<Option<ChunkSection>>
    const biomes: seq<int>
    var lastUpdate: Int64
    var inhabitedTime: Int64
    const carvingMasks: (seq<int>, seq<int>)
    const structures: Opaque
    var heightmaps: map<HeightmapType, HeightmapData>
    /** Every `Heightmap.update` call made so far, oldest first. */
    var heightmapUpdates: seq<HeightmapUpdate>
    /** Bit sets, as the set of their set bits, of light sections whose light changed. */
    var blockChangedLightSectionFilter: set<nat>
    var skyChangedLightSectionFilter: set<nat>
    var blockNibbles: seq<Nibble>
    var skyNibbles: seq<Nibble>

    ghost predicate Valid()
      reads this
    {
      && WellFormed(world)
      && sections.Length == SectionCount(world)
      && |blockNibbles| == LightSectionCount(world)
      && |skyNibbles| == LightSectionCount(world)
    }

    constructor (
      world: World, position: ChunkPosition, sections: array<Option<ChunkSection>>, biomes: seq<int>,
      lastUpdate: Int64, inhabitedTime: Int64, carvingMasks: (seq<int>, seq<int>), structures: Opaque)
      requires WellFormed(world) && sections.Length == SectionCount(world)
      ensures Valid()
      ensures this.world == world && this.position == position && this.sections == sections
      ensures this.biomes == biomes && this.lastUpdate == lastUpdate && this.inhabitedTime == inhabitedTime
      ensures this.carvingMasks == carvingMasks && this.structures == structures
      ensures heightmaps == map[] && heightmapUpdates == []
      ensures blockChangedLightSectionFilter == {} && skyChangedLightSectionFilter == {}
      ensures blockNibbles == FilledEmptyLight(world) && skyNibbles == FilledEmptyLight(world)
    {
      this.world := world;
      this.position := position;
      this.sections := sections;
      this.biomes := biomes;
      this.lastUpdate := lastUpdate;
      this.inhabitedTime := inhabitedTime;
      this.carvingMasks := carvingMasks;
      this.structures := structures;
      heightmaps := map[];
      heightmapUpdates := [];
      blockChangedLightSectionFilter := {};
      skyChangedLightSectionFilter := {};
      blockNibbles := FilledEmptyLight(world);
      skyNibbles := FilledEmptyLight(world);
    }

    /**
     * The block at world coordinates (x, y, z): the section's cell when the
     * Y falls in a present, non-empty section, otherwise air.
     */
    function GetBlock(x: int, y: int, z: int): (r: KryptonBlock)
      reads this, sections
      ensures !(0 <= SectionIndex(world, y) < sections.Length) ==> r == AIR
      ensures 0 <= SectionIndex(world, y) < sections.Length && !Occupied(sections[SectionIndex(world, y)]) ==> r == AIR
      ensures 0 <= SectionIndex(world, y) < sections.Length && Occupied(sections[SectionIndex(world, y)]) ==>
        r == sections[SectionIndex(world, y)].value.Get(Local(x, y, z))
    {
      var i := SectionIndex(world, y);
      if 0 <= i < sections.Length && Occupied(sections[i]) then sections[i].value.Get(Local(x, y, z))
      else AIR
    }

    /**
     * Writes `block` at (x, y, z). A missing section is allocated only for a
     * non-air block; a write that changes nothing returns None and leaves
     * the heightmaps alone; a real change returns the previous state and
     * updates each of the four heightmaps once.
     */
    method SetBlock(x: int, y: int, z: int, block: KryptonBlock) returns (r: Option<KryptonBlock>)
      requires 0 <= SectionIndex(world, y) < sections.Length
      requires POST_FEATURES <= heightmaps.Keys
      modifies sections, this`heightmapUpdates
      ensures var i := SectionIndex(world, y);
        old(sections[i]).None? && block.isAir ==>
          r == None && sections[..] == old(sections[..]) && heightmapUpdates == old(heightmapUpdates)
      ensures var i := SectionIndex(world, y); var p := Local(x, y, z);
        var s := old(sections[i]).GetOr(NewSection(y / 16));
        old(sections[i]).Some? || !block.isAir ==>
          && sections[..] == old(sections[..])[i := Some(s.Set(p, block))]
          && (s.Get(p) == block ==> r == None && heightmapUpdates == old(heightmapUpdates))
          && (s.Get(p) != block ==>
                r == Some(s.Get(p)) && heightmapUpdates == old(heightmapUpdates) + HeightmapFanOut(p.x, y, p.z, block))
      ensures !block.isAir ==> GetBlock(x, y, z) == block
      ensures forall x', y', z' :: !SameCell(x, y, z, x', y', z') ==>
        SameOrBothAir(GetBlock(x', y', z'), old(GetBlock(x', y', z')))
    {
      var i := SectionIndex(world, y);
      var section := sections[i];
      if section.None? {
        if block.isAir {
          return None;
        }
        section := Some(NewSection(y / 16));
        sections[i] := section;
      }
      var p := Local(x, y, z);
      var oldState := section.value.Get(p);
      sections[i] := Some(section.value.Set(p, block));
      if oldState == block {
        return None;
      }
      heightmapUpdates := heightmapUpdates + HeightmapFanOut(p.x, y, p.z, block);
      r := Some(oldState);
    }

    /** Inhabited time accrues by the number of observing players, in `long` arithmetic. */
    method Tick(playerCount: Int32)
      modifies this`inhabitedTime
      ensures inhabitedTime == Wrap64(old(inhabitedTime) + playerCount)
    {
      inhabitedTime := Wrap64(inhabitedTime + playerCount);
    }

    /** Installs heightmap data for one type. */
    method SetHeightmap(kind: HeightmapType, data: HeightmapData)
      modifies this`heightmaps
      ensures heightmaps == old(heightmaps)[kind := data]
    {
      heightmaps := heightmaps[kind := data];
    }

    /**
     * Records that the light of light section `y` changed on one layer: bit
     * `y - minLightSection` of that layer's filter, when `y` is in range.
     */
    method OnLightUpdate(layer: LightLayer, y: int)
      modifies this`skyChangedLightSectionFilter, this`blockChangedLightSectionFilter
      ensures LightChangeRecorded(this, layer, y, old(skyChangedLightSectionFilter), old(blockChangedLightSectionFilter))
    {
      var bottomSection := WorldUtil.MinLightSection(world.heights);
      var topSection := WorldUtil.MaxLightSection(world.heights);
      if !(bottomSection <= y <= topSection) {
        return;
      }
      var actual := y - bottomSection;
      match layer
      case Sky => skyChangedLightSectionFilter := skyChangedLightSectionFilter + {actual};
      case BlockLayer => blockChangedLightSectionFilter := blockChangedLightSectionFilter + {actual};
    }

    /** Slot `i` holds the highest occupied section. */
    ghost predicate IsTopOccupied(i: int)
      reads this, sections
    {
      && 0 <= i < sections.Length
      && Occupied(sections[i])
      && forall j :: i < j < sections.Length ==> !Occupied(sections[j])
    }

    /** The highest present, non-empty section, found by scanning down from the top slot. */
    method HighestSection() returns (r: Option<ChunkSection>)
      ensures r.None? <==> forall j :: 0 <= j < sections.Length ==> !Occupied(sections[j])
      ensures r.Some? ==> exists i :: IsTopOccupied(i) && sections[i] == r
    {
      var i := sections.Length;
      while i > 0
        invariant 0 <= i <= sections.Length
        invariant forall j :: i <= j < sections.Length ==> !Occupied(sections[j])
      {
        i := i - 1;
        var section := sections[i];
        if section.Some? && !section.value.IsEmpty() {
          assert IsTopOccupied(i);
          return section;
        }
      }
      return None;
    }

    /** The Y of the highest occupied section, or the world's minimum build height when there is none. */
    method HighestSectionPosition() returns (r: int)
      ensures (forall j :: 0 <= j < sections.Length ==> !Occupied(sections[j])) ==> r == world.minimumBuildHeight
      ensures (exists j :: 0 <= j < sections.Length && Occupied(sections[j])) ==>
        exists i :: IsTopOccupied(i) && r == sections[i].value.y
    {
      var highest := HighestSection();
      r := if highest.Some? then highest.value.y else world.minimumBuildHeight;
    }
  }

  /**
   * The light-change filters of `c` are those before (`sky0`, `block0`) with
   * bit `y - minLightSection` set in the filter of `layer` when `y` lies in
   * [minLightSection, maxLightSection], and unchanged otherwise; the other
   * layer's filter never changes.
   */
  ghost predicate LightChangeRecorded(c: KryptonChunk, layer: LightLayer, y: int, sky0: set<nat>, block0: set<nat>)
    reads c
  {
    var lo := WorldUtil.MinLightSection(c.world.heights);
    if lo <= y <= WorldUtil.MaxLightSection(c.world.heights) then
      match layer
      case Sky => c.skyChangedLightSectionFilter == sky0 + {y - lo} && c.blockChangedLightSectionFilter == block0
      case BlockLayer => c.blockChangedLightSectionFilter == block0 + {y - lo} && c.skyChangedLightSectionFilter == sky0
    else
      c.skyChangedLightSectionFilter == sky0 && c.blockChangedLightSectionFilter == block0
  }

  /** Rebuilds the heightmaps of the given types by scanning the chunk's columns. */
  method PrimeHeightmaps(chunk: KryptonChunk, kinds: set<HeightmapType>)
    modifies chunk`heightmaps
    ensures chunk.heightmaps == old(chunk.heightmaps) + map k | k in kinds :: Primed
  {
    chunk.heightmaps := chunk.heightmaps + map k | k in kinds :: Primed;
  }
}
