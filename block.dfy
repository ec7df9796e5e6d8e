/**
 * The light-related attributes a block state derives from its static data
 * (`KryptonBlock`). Bounding boxes are opaque values compared only by
 * equality; the block registry is a supplied lookup.
 */
module Blocks {
  import opened Wrappers
  import Directions

  /** A collision or occlusion shape; only EMPTY and the full-cube BLOCK are told apart. */
  datatype BoundingBox = EmptyBox | FullBlock | Shape(tag: nat)

  /** One block state, with the static data its derived attributes are computed from. */
  datatype KryptonBlock = KryptonBlock(
    key: string,
    name: string,
    id: int,
    stateId: int,
    isAir: bool,
    isLiquid: bool,
    occludes: bool,
    lightEmission: int,
    properties: map<string, string>,
    shapes: seq<BoundingBox>,
    occlusionShapes: seq<BoundingBox>)

  /** The air block state, returned for every cell that holds nothing. */
  const AIR: KryptonBlock :=
    KryptonBlock("minecraft:air", "AIR", 0, 0, true, false, false, 0, map[], [], [])

  const MAXIMUM_LIGHT_LEVEL: int := 15

  /** Whether `sub` occurs in `s` (Kotlin's `String.contains`): at some offset `s` continues with `sub`. */
  predicate Contains(s: string, sub: string)
    ensures Contains(s, sub) <==> exists i :: 0 <= i && i + |sub| <= |s| && s[i..][..|sub|] == sub
    decreases |s|
  {
    if |sub| > |s| then false
    else if s[..|sub|] == sub then
      assert s[0..][..|sub|] == sub;
      true
    else
      var found := Contains(s[1..], sub);
      assert forall i :: 1 <= i <= |s| ==> s[1..][i - 1..] == s[i..];
      found
  }

  /** `list.firstOrNull() ?: BoundingBox.EMPTY`. */
  function FirstOrEmpty(boxes: seq<BoundingBox>): (r: BoundingBox)
    ensures boxes == [] ==> r == EmptyBox
    ensures boxes != [] ==> r == boxes[0]
  {
    if boxes == [] then EmptyBox else boxes[0]
  }

  /** Shulker boxes change shape when opened, so their opacity is not fixed. */
  predicate HasDynamicShape(b: KryptonBlock)
    ensures HasDynamicShape(b) <==>
      exists i :: 0 <= i && i + 11 <= |b.name| && b.name[i..][..11] == "SHULKER_BOX"
  {
    Contains(b.name, "SHULKER_BOX")
  }

  /** The block's first collision shape is the full cube; a block without shapes is not full. */
  predicate IsFullBlock(b: KryptonBlock)
    ensures IsFullBlock(b) <==> b.shapes != [] && b.shapes[0] == FullBlock
  {
    FirstOrEmpty(b.shapes) == FullBlock
  }

  /** The block occludes and its first occlusion shape is the full cube. */
  predicate IsSolidRender(b: KryptonBlock)
    ensures IsSolidRender(b) ==> b.occludes
  {
    b.occludes && FirstOrEmpty(b.occlusionShapes) == FullBlock
  }

  /** Sky light passes straight down through blocks that are neither full nor liquid. */
  predicate PropagatesSkyLightDown(b: KryptonBlock)
    ensures PropagatesSkyLightDown(b) <==> !b.isLiquid && (b.shapes == [] || b.shapes[0] != FullBlock)
  {
    !IsFullBlock(b) && !b.isLiquid
  }

  /** How much light the block takes away from light passing through it. */
  function BlockedLight(b: KryptonBlock): (r: int)
    ensures r in {0, 1, MAXIMUM_LIGHT_LEVEL}
    ensures r == MAXIMUM_LIGHT_LEVEL <==> IsSolidRender(b)
    ensures r == 0 <==> !IsSolidRender(b) && PropagatesSkyLightDown(b)
    ensures r == 1 <==> !IsSolidRender(b) && (IsFullBlock(b) || b.isLiquid)
  {
    if IsSolidRender(b) then MAXIMUM_LIGHT_LEVEL
    else if PropagatesSkyLightDown(b) then 0
    else 1
  }

  /**
   * The block occludes but lets light through some of its faces. Which blocks
   * are transparent on some faces is a content allow-list, supplied here as
   * `transparentOnSomeFaces`.
   */
  predicate IsConditionallyFullyOpaque(b: KryptonBlock, transparentOnSomeFaces: KryptonBlock -> bool)
    ensures IsConditionallyFullyOpaque(b, transparentOnSomeFaces) ==> b.occludes
    ensures IsConditionallyFullyOpaque(b, transparentOnSomeFaces) ==> transparentOnSomeFaces(b)
  {
    transparentOnSomeFaces(b) && b.occludes
  }

  /**
   * The light engine's opacity: -1 means "ask per face", otherwise the light
   * blocked by the whole block.
   */
  function Opacity(b: KryptonBlock, transparentOnSomeFaces: KryptonBlock -> bool): (r: int)
    ensures r in {-1, 0, 1, MAXIMUM_LIGHT_LEVEL}
    ensures r == -1 <==> HasDynamicShape(b) || IsConditionallyFullyOpaque(b, transparentOnSomeFaces)
    ensures r != -1 ==> r == BlockedLight(b)
  {
    if HasDynamicShape(b) || IsConditionallyFullyOpaque(b, transparentOnSomeFaces) then -1
    else BlockedLight(b)
  }

  /** Blocks are ordered by block id alone (Kotlin's `Int.compareTo`). */
  function CompareTo(a: KryptonBlock, b: KryptonBlock): (r: int)
    ensures r in {-1, 0, 1}
    ensures r < 0 <==> a.id < b.id
    ensures r == 0 <==> a.id == b.id
    ensures r > 0 <==> a.id > b.id
  {
    if a.id < b.id then -1 else if a.id == b.id then 0 else 1
  }

  /** Two states of the same block compare equal, and the order is antisymmetric. */
  lemma CompareByIdOnly(a: KryptonBlock, a': KryptonBlock, b: KryptonBlock)
    requires a.id == a'.id
    ensures CompareTo(a, a') == 0
    ensures CompareTo(a, b) == CompareTo(a', b)
    ensures CompareTo(b, a) == -CompareTo(a, b)
  {
  }

  /** The occlusion shape of one face: the shape at the direction's id, or the full cube. */
  function FaceOcclusionBox(b: KryptonBlock, d: Directions.Direction): (r: BoundingBox)
    ensures Directions.Id(d) < |b.occlusionShapes| ==> r == b.occlusionShapes[Directions.Id(d)]
    ensures Directions.Id(d) >= |b.occlusionShapes| ==> r == FullBlock
  {
    var i := Directions.Id(d);
    if i < |b.occlusionShapes| then b.occlusionShapes[i] else FullBlock
  }

  /**
   * A solid-render block's downward face is the full cube, and so is every
   * face of a block that lists no occlusion shapes.
   */
  lemma SolidRenderFaces(b: KryptonBlock)
    ensures IsSolidRender(b) ==> FaceOcclusionBox(b, Directions.Down) == FullBlock
    ensures b.occlusionShapes == [] ==> forall d :: FaceOcclusionBox(b, d) == FullBlock
  {
    if IsSolidRender(b) {
      assert Directions.Id(Directions.Down) == 0;
    }
  }

  /**
   * The state of the same block with property `k` set to `v`. `lookup` is the
   * registry of states by block key and full property map; a combination it
   * does not know is an error, not a block.
   */
  function WithProperty(
    b: KryptonBlock, k: string, v: string,
    lookup: (string, map<string, string>) -> Option<KryptonBlock>): (r: Result<KryptonBlock, string>)
    ensures r.Success? <==> lookup(b.key, b.properties[k := v]).Some?
    ensures r.Success? ==> r.value == lookup(b.key, b.properties[k := v]).value
    ensures r.Failure? ==> r.error == "Invalid properties: " + k + ":" + v
  {
    match lookup(b.key, b.properties[k := v])
    case Some(s) => Success(s)
    case None => Failure("Invalid properties: " + k + ":" + v)
  }
}
