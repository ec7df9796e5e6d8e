# Krypton chunk layer, modelled in Dafny

A model of the chunk layer of the Krypton Minecraft server: the per-chunk
block store (`KryptonChunk`), the chunk cache and its persistence rules
(`ChunkManager` and `KryptonChunk.serialize`), the section and light-section
index arithmetic (`WorldUtil`), the light-related attributes of a block state
(`KryptonBlock`) and the face/opposite mapping of `BlockFace`.

Layout:

- `wrappers.dfy` holds `Option` and `Result`.
- `java_ints.dfy` writes out the JVM `int`/`long` arithmetic the source relies on:
  - two's-complement wrap-around;
  - `<< 4`, `| 15`;
  - `(i and 255).toByte()`.
- `world_util.dfy` holds the eight `WorldUtil` formulas, in 32-bit arithmetic, each with its closed form for worlds of realistic height.
- `block_face.dfy` holds `Direction` ids and `BlockFace.opposite`.
- `block.dfy` holds the derived attributes of a block state:
  - `blockedLight`, `opacity` and the other light attributes;
  - `compareTo`, `faceOcclusionBox` and `withProperty`.
- `chunk_section.dfy` models a section as a map from local cell to block state.
- `chunk.dfy` holds the `KryptonChunk` class, with its section array, heightmaps, light filters, nibble arrays and counters.
- `chunk_codec.dfy` holds the persisted document. It gives:
  - `Decode`, the pure specification of `load`'s section loop;
  - `SerializedDoc`, the specification of `serialize`;
  - the imperative `serialize` loop, proved against that specification.
- `chunk_manager.dfy` holds the `ChunkManager` class: the cache map, the store map and the world's chunk map.
  - It also keeps an ordered log of the calls made on collaborators (store reads and writes, cache puts and invalidations, heightmap priming, lighting).
  - `load`'s decode loop and heightmap loop are proved against `Decode` and the heightmap functions of the codec.

Behaviour kept exactly as the source has it:

- `load` reads the inhabited time from the key `inhabitedTime`, while `serialize` writes it under `InhabitedTime`.
  - `ChunkCodec.SerializedDoc` states that a written document reads back an inhabited time of 0.
- `serialize` picks the section for light section `i` by `section.y shr 4 == i`, although a section's `y` is already a section coordinate; `load` builds `ChunkSection(Y)` from the raw `Y`.
  - `ChunkCodec.SectionSavedUnderShiftedY` shows a section with Y 1 written as the entry for Y 0.
  - `ChunkCodec.ShiftedEntryLoadsOneSectionLow` shows that entry reloading into slot 0.
- `load` publishes the chunk in the cache before its heightmaps are primed and before it is lit.
  - The event log in `ChunkManagement.ChunkManager.Load` records that order.
- `serialize` writes no `isLightOn` tag, so the light data it saves is never read back.
  - Decoding a saved chunk leaves both light arrays filled-empty (`ChunkCodec.DecodeWithoutLightFlag`).
  - The light engine's `lightChunk`, called at the end of `load`, has to recompute them.

## Model

| member | source | states |
|---|---|---|
| JavaInts.Wrap32 | server/src/main/java/org/kryptonmc/krypton/util/WorldUtil.java:11-13 | the result is a 32-bit int congruent to the exact value modulo 2^32, and equals it when it fits |
| JavaInts.Wrap64 | server/src/main/kotlin/org/kryptonmc/krypton/world/chunk/KryptonChunk.kt:104-106 | the result is a 64-bit long congruent to the exact value modulo 2^64, and equals it when it fits |
| JavaInts.Shl4 | server/src/main/java/org/kryptonmc/krypton/util/WorldUtil.java:35-37 | `v << 4` is a multiple of 16, and is 16·v whenever that fits in an int |
| JavaInts.Or15 | server/src/main/java/org/kryptonmc/krypton/util/WorldUtil.java:39-41 | `v \| 15` is 15 mod 16, lies in [v, v+16), and keeps v's quotient by 16 |
| JavaInts.LowByte | server/src/main/kotlin/org/kryptonmc/krypton/world/chunk/ChunkManager.kt:178 | `(i and 255).toByte()` is a signed byte congruent to i modulo 256, and is i itself when i is a byte |
| WorldUtil.MaxSection | server/src/main/java/org/kryptonmc/krypton/util/WorldUtil.java:11-13 | the highest section is the world's maximum section minus one |
| WorldUtil.MinSection | server/src/main/java/org/kryptonmc/krypton/util/WorldUtil.java:15-17 | the lowest section is the world's minimum section |
| WorldUtil.MaxLightSection | server/src/main/java/org/kryptonmc/krypton/util/WorldUtil.java:19-21 | the highest light section equals the world's maximum section |
| WorldUtil.MinLightSection | server/src/main/java/org/kryptonmc/krypton/util/WorldUtil.java:23-25 | the lowest light section is one below the minimum section |
| WorldUtil.TotalSections | server/src/main/java/org/kryptonmc/krypton/util/WorldUtil.java:27-29 | the section count is maximum section minus minimum section |
| WorldUtil.TotalLightSections | server/src/main/java/org/kryptonmc/krypton/util/WorldUtil.java:31-33 | there are exactly two more light sections than sections |
| WorldUtil.MinBlockY | server/src/main/java/org/kryptonmc/krypton/util/WorldUtil.java:35-37 | the lowest block Y is 16 times the lowest section |
| WorldUtil.MaxBlockY | server/src/main/java/org/kryptonmc/krypton/util/WorldUtil.java:39-41 | the highest block Y is 16 times the highest section plus 15 |
| WorldUtil.BlockSpan | server/src/main/java/org/kryptonmc/krypton/util/WorldUtil.java:27-41 | the block-Y range holds exactly 16 blocks per section |
| Directions.Id | server/src/main/kotlin/org/kryptonmc/krypton/world/block/KryptonBlock.kt:87 | a direction's id indexes one of six per-face slots |
| BlockFaces.DirectionOf | api/src/main/kotlin/org/kryptonmc/api/block/BlockFace.kt:18-25 | BOTTOM looks down and TOP looks up, and no other face does |
| BlockFaces.Opposite | api/src/main/kotlin/org/kryptonmc/api/block/BlockFace.kt:32-41 | no face is its own opposite |
| BlockFaces.DirectionOfInjective | api/src/main/kotlin/org/kryptonmc/api/block/BlockFace.kt:20-25 | distinct faces look in distinct directions |
| BlockFaces.OppositeInvolution | api/src/main/kotlin/org/kryptonmc/api/block/BlockFace.kt:32-41 | the opposite of the opposite is the face itself |
| BlockFaces.OppositePairs | api/src/main/kotlin/org/kryptonmc/api/block/BlockFace.kt:33-40 | opposites pair exactly BOTTOM/TOP, NORTH/SOUTH and WEST/EAST |
| Blocks.Contains | server/src/main/kotlin/org/kryptonmc/krypton/world/block/KryptonBlock.kt:74 | `contains` holds iff the searched text occurs at some offset of the name |
| Blocks.HasDynamicShape | server/src/main/kotlin/org/kryptonmc/krypton/world/block/KryptonBlock.kt:74 | a block has a dynamic shape iff its name contains SHULKER_BOX |
| Blocks.IsFullBlock | server/src/main/kotlin/org/kryptonmc/krypton/world/block/KryptonBlock.kt:75 | a block is full iff its first collision shape is the full cube; with no shapes it is not |
| Blocks.PropagatesSkyLightDown | server/src/main/kotlin/org/kryptonmc/krypton/world/block/KryptonBlock.kt:77 | sky light passes down iff the block is neither full nor liquid |
| Blocks.FirstOrEmpty | server/src/main/kotlin/org/kryptonmc/krypton/world/block/KryptonBlock.kt:75-76 | the first shape of a list, or EMPTY for an empty list |
| Blocks.IsSolidRender | server/src/main/kotlin/org/kryptonmc/krypton/world/block/KryptonBlock.kt:76 | a solid-render block always occludes |
| Blocks.BlockedLight | server/src/main/kotlin/org/kryptonmc/krypton/world/block/KryptonBlock.kt:75-79 | blocked light is always 0, 1 or 15. It is 15 exactly for solid-render blocks, 0 exactly for the rest that pass sky light down, and 1 exactly for the rest that are full or liquid |
| Blocks.IsConditionallyFullyOpaque | server/src/main/kotlin/org/kryptonmc/krypton/world/block/KryptonBlock.kt:80 | a conditionally fully opaque block occludes and is on the transparent-on-some-faces list |
| Blocks.Opacity | server/src/main/kotlin/org/kryptonmc/krypton/world/block/KryptonBlock.kt:74-81 | opacity is -1, 0, 1 or 15. It is -1 exactly for dynamic-shape or conditionally fully opaque blocks, and otherwise it is the blocked light |
| Blocks.CompareTo | server/src/main/kotlin/org/kryptonmc/krypton/world/block/KryptonBlock.kt:94 | the comparison is -1, 0 or 1, with the sign of the id comparison |
| Blocks.CompareByIdOnly | server/src/main/kotlin/org/kryptonmc/krypton/world/block/KryptonBlock.kt:94 | two states of one block compare equal and compare alike against any third; the order is antisymmetric |
| Blocks.FaceOcclusionBox | server/src/main/kotlin/org/kryptonmc/krypton/world/block/KryptonBlock.kt:87 | a face's occlusion shape is the listed shape at the direction's id when present, otherwise the full cube |
| Blocks.SolidRenderFaces | server/src/main/kotlin/org/kryptonmc/krypton/world/block/KryptonBlock.kt:76-87 | a solid-render block's downward face is the full cube, and a block without occlusion shapes is the full cube on every face |
| Blocks.WithProperty | server/src/main/kotlin/org/kryptonmc/krypton/world/block/KryptonBlock.kt:89-92 | succeeds iff the registry knows the key with the property map updated at k, returns that state, and otherwise fails with "Invalid properties: k:v" |
| Sections.ChunkSection.Get | server/src/main/kotlin/org/kryptonmc/krypton/world/chunk/KryptonChunk.kt:70 | a cell never written reads as air |
| Sections.ChunkSection.Set | server/src/main/kotlin/org/kryptonmc/krypton/world/chunk/KryptonChunk.kt:93 | after the write the cell reads the new state, every other cell reads as before, and the section keeps its Y |
| Sections.ChunkSection.IsEmpty | server/src/main/kotlin/org/kryptonmc/krypton/world/chunk/KryptonChunk.kt:70 | a section is empty iff every cell reads as an air state |
| Sections.NewSection | server/src/main/kotlin/org/kryptonmc/krypton/world/chunk/KryptonChunk.kt:85 | a new section has the given Y, reads air everywhere and is empty |
| Chunks.SectionCount | server/src/main/kotlin/org/kryptonmc/krypton/world/chunk/ChunkManager.kt:85 | a well-formed world has a non-negative section count |
| Chunks.SectionIndex | server/src/main/kotlin/org/kryptonmc/krypton/world/chunk/KryptonChunk.kt:67 | in a well-formed world, Y indexes the section array iff it lies between the lowest and the highest block Y |
| Chunks.SectionIndexFromY | server/src/main/kotlin/org/kryptonmc/krypton/world/chunk/ChunkManager.kt:93 | in a well-formed world, a section Y indexes the section array iff it lies between the lowest and the highest section |
| Chunks.LightSectionCount | server/src/main/kotlin/org/kryptonmc/krypton/world/chunk/ChunkManager.kt:79-81 | the light arrays have two more slots than the section array |
| Chunks.Local | server/src/main/kotlin/org/kryptonmc/krypton/world/chunk/KryptonChunk.kt:90-92 | the local cell is `x and 15`, `y and 15`, `z and 15`: each coordinate lies in [0, 16), which its type guarantees, and differs from the block coordinate by a multiple of 16 |
| Chunks.FilledEmptyLight | server/src/main/kotlin/org/kryptonmc/krypton/world/chunk/ChunkManager.kt:79-80 | a fresh light array has one filled-empty nibble per light section |
| Chunks.HeightmapFanOut | server/src/main/kotlin/org/kryptonmc/krypton/world/chunk/KryptonChunk.kt:97-100 | a change makes one update with the same column, Y and block on each of the four post-features heightmaps |
| Chunks.KryptonChunk.constructor | server/src/main/kotlin/org/kryptonmc/krypton/world/chunk/KryptonChunk.kt:37-64 | a new chunk keeps its arguments. It starts with no heightmaps, empty light filters and filled-empty light arrays |
| Chunks.KryptonChunk.GetBlock | server/src/main/kotlin/org/kryptonmc/krypton/world/chunk/KryptonChunk.kt:66-73 | air when the section index is out of range, the slot is null or the section is empty; otherwise the section's cell at (x&15, y&15, z&15) |
| Chunks.KryptonChunk.SetBlock | server/src/main/kotlin/org/kryptonmc/krypton/world/chunk/KryptonChunk.kt:79-102 | air written into a null slot returns null and changes nothing. Otherwise the slot holds the section (a new one at `y shr 4` if it was null) with the cell written. An unchanged cell returns null with no heightmap update; a change returns the old state and fans out to the four heightmaps. A non-air write reads back, and every other cell reads as before (a read of a missing slot and of an empty new section both give air) |
| Chunks.KryptonChunk.Tick | server/src/main/kotlin/org/kryptonmc/krypton/world/chunk/KryptonChunk.kt:104-106 | inhabited time grows by the player count in long arithmetic, and nothing else changes |
| Chunks.KryptonChunk.SetHeightmap | server/src/main/kotlin/org/kryptonmc/krypton/world/chunk/KryptonChunk.kt:108 | installs the data for exactly one heightmap type |
| Chunks.KryptonChunk.OnLightUpdate | server/src/main/kotlin/org/kryptonmc/krypton/world/chunk/KryptonChunk.kt:110-119 | in [minLightSection, maxLightSection] it sets exactly bit y - minLightSection in that layer's filter; outside it changes nothing; it never touches the other layer's filter |
| Chunks.KryptonChunk.HighestSection | server/src/main/kotlin/org/kryptonmc/krypton/world/chunk/KryptonChunk.kt:121-128 | null iff no slot holds a non-empty section; otherwise the section in the highest such slot |
| Chunks.KryptonChunk.HighestSectionPosition | server/src/main/kotlin/org/kryptonmc/krypton/world/chunk/KryptonChunk.kt:130-131 | the Y of the highest non-empty section, or the minimum build height when there is none |
| Chunks.PrimeHeightmaps | server/src/main/kotlin/org/kryptonmc/krypton/world/chunk/ChunkManager.kt:133 | every requested type ends up primed; other heightmaps are kept |
| ChunkCodec.LongOr0 | server/src/main/kotlin/org/kryptonmc/krypton/world/chunk/ChunkManager.kt:118-119 | a long tag that is present reads as its value, and an absent one reads as 0 |
| ChunkCodec.SectionOf | server/src/main/kotlin/org/kryptonmc/krypton/world/chunk/ChunkManager.kt:90-91 | `ChunkSection(y)` loaded from the palette: the section's Y is the entry's raw Y, and each cell reads the palette's block, or air where the palette has none |
| ChunkCodec.Installs | server/src/main/kotlin/org/kryptonmc/krypton/world/chunk/ChunkManager.kt:89-93 | an entry installs a section iff it has Palette and BlockStates and its decoded section holds a non-air cell |
| ChunkCodec.BlockNibbleOf | server/src/main/kotlin/org/kryptonmc/krypton/world/chunk/ChunkManager.kt:96-100 | the block-light nibble carries the entry's BlockLight bytes, present or absent, and its saved state, or 0 when the state is absent |
| ChunkCodec.SkyNibbleOf | server/src/main/kotlin/org/kryptonmc/krypton/world/chunk/ChunkManager.kt:101-105 | the sky-light nibble carries the entry's SkyLight bytes, present or absent, and its saved state, or 0 when the state is absent |
| ChunkCodec.InitialDecoded | server/src/main/kotlin/org/kryptonmc/krypton/world/chunk/ChunkManager.kt:79-85 | before any entry, every section slot is null and both light arrays are filled-empty |
| ChunkCodec.DecodeStep | server/src/main/kotlin/org/kryptonmc/krypton/world/chunk/ChunkManager.kt:86-108 | one entry fails the load exactly when it indexes outside the section array or the light arrays |
| ChunkCodec.Decode | server/src/main/kotlin/org/kryptonmc/krypton/world/chunk/ChunkManager.kt:84-109 | a successful decode yields arrays of the world's section and light-section sizes |
| ChunkCodec.StepSectionSlot | server/src/main/kotlin/org/kryptonmc/krypton/world/chunk/ChunkManager.kt:89-93 | one entry writes slot k iff it has Palette and BlockStates, is non-empty, and its Y indexes slot k |
| ChunkCodec.StepLightSlot | server/src/main/kotlin/org/kryptonmc/krypton/world/chunk/ChunkManager.kt:95-107 | with isLightOn, one entry overwrites light slot `Y - minSection` and no other. Sky light is written only in a world with sky light |
| ChunkCodec.DecodeLast | server/src/main/kotlin/org/kryptonmc/krypton/world/chunk/ChunkManager.kt:86-109 | a successful decode is the decode of all but the last entry, followed by one step |
| ChunkCodec.DecodeFailurePersists | server/src/main/kotlin/org/kryptonmc/krypton/world/chunk/ChunkManager.kt:86-109 | once a prefix of the list fails, the whole load fails with the same error |
| ChunkCodec.DecodeFailsIff | server/src/main/kotlin/org/kryptonmc/krypton/world/chunk/ChunkManager.kt:93-107 | the load fails iff some entry indexes outside the section array or the light arrays |
| ChunkCodec.SlotHoldsAppend | server/src/main/kotlin/org/kryptonmc/krypton/world/chunk/ChunkManager.kt:93 | a later entry for the same slot replaces an earlier one |
| ChunkCodec.DecodedSectionSlot | server/src/main/kotlin/org/kryptonmc/krypton/world/chunk/ChunkManager.kt:85-94 | slot k holds a section iff some entry with Palette, BlockStates and a non-empty section indexes it, and then it holds the last such entry's section; every other slot stays null |
| ChunkCodec.DecodeWithoutLightFlag | server/src/main/kotlin/org/kryptonmc/krypton/world/chunk/ChunkManager.kt:95 | without isLightOn both light arrays stay filled-empty |
| ChunkCodec.LastLightIndex | server/src/main/kotlin/org/kryptonmc/krypton/world/chunk/ChunkManager.kt:95-107 | the last entry whose light index is l, or -1 iff there is none |
| ChunkCodec.DecodedLightSlot | server/src/main/kotlin/org/kryptonmc/krypton/world/chunk/ChunkManager.kt:95-107 | with isLightOn, light slot l holds the nibble of the last entry with `Y - minSection == l`, or filled-empty if there is none. Sky light is written only in a world with sky light |
| ChunkCodec.FirstMatch | server/src/main/kotlin/org/kryptonmc/krypton/world/chunk/ChunkManager.kt:174 | null iff no slot holds a section with `y shr 4 == i`; otherwise the first such slot's section |
| ChunkCodec.MatchesY | server/src/main/kotlin/org/kryptonmc/krypton/world/chunk/ChunkManager.kt:174 | a slot matches light section i iff it holds a section whose y lies in [16i, 16i + 16), which is `y shr 4 == i` |
| ChunkCodec.EntryAt | server/src/main/kotlin/org/kryptonmc/krypton/world/chunk/ChunkManager.kt:174-189 | the walk emits an entry for light section i iff a section matches i or either save state is non-null. That entry's Y is the low byte of i, and with a matching section its palette is the first matching section's |
| ChunkCodec.SectionEntries | server/src/main/kotlin/org/kryptonmc/krypton/world/chunk/ChunkManager.kt:173-190 | the walk writes at most one entry per light section walked, and each entry has Palette iff it has BlockStates |
| ChunkCodec.EntriesMembership | server/src/main/kotlin/org/kryptonmc/krypton/world/chunk/ChunkManager.kt:173-190 | an entry is in the list for n light sections iff it is in the list for n - 1 or is the entry of section n - 1 |
| ChunkCodec.SectionEntry | server/src/main/kotlin/org/kryptonmc/krypton/world/chunk/ChunkManager.kt:175-189 | an entry is emitted iff the section, the block-light save state or the sky-light save state is non-null. Its Y is the low byte of i, and its palette is the section's. Each light state is present iff its save state is, and then carries that save state's data and state. So loading the entry gives back the same nibble `Loaded(data, state)` for each layer that was saved |
| ChunkCodec.SectionEntriesY | server/src/main/kotlin/org/kryptonmc/krypton/world/chunk/ChunkManager.kt:173-190 | within the byte range, every written entry's Y is one of the walked light sections |
| ChunkCodec.SectionEntryWrittenIff | server/src/main/kotlin/org/kryptonmc/krypton/world/chunk/ChunkManager.kt:173-190 | the list holds an entry for light section i iff a section matches i or either save state is non-null, and that entry is the one built for i |
| ChunkCodec.SectionSavedUnderShiftedY | server/src/main/kotlin/org/kryptonmc/krypton/world/chunk/ChunkManager.kt:173-178 | a section with Y 1 is written as the entry with Y 0 |
| ChunkCodec.ShiftedEntryLoadsOneSectionLow | server/src/main/kotlin/org/kryptonmc/krypton/world/chunk/ChunkManager.kt:88-93 | that entry reloads into slot 0 with Y 0, leaving slot 1 null |
| ChunkCodec.SavedHeightmaps | server/src/main/kotlin/org/kryptonmc/krypton/world/chunk/ChunkManager.kt:193-196 | only post-features heightmaps are written, each with its own data |
| ChunkCodec.MissingHeightmaps | server/src/main/kotlin/org/kryptonmc/krypton/world/chunk/ChunkManager.kt:129-132 | the post-features types to prime are disjoint from those in the document, and together they make up all of POST_FEATURES |
| ChunkCodec.LoadedHeightmaps | server/src/main/kotlin/org/kryptonmc/krypton/world/chunk/ChunkManager.kt:129-133 | a loaded chunk has every post-features heightmap: the document's data where present, primed otherwise |
| ChunkCodec.LoadedHeightmapsSplit | server/src/main/kotlin/org/kryptonmc/krypton/world/chunk/ChunkManager.kt:129-133 | installing the present heightmaps and then priming the missing ones gives the loaded heightmaps |
| ChunkCodec.HeightmapsRoundTrip | server/src/main/kotlin/org/kryptonmc/krypton/world/chunk/ChunkManager.kt:129-133 | a full set of post-features heightmaps survives saving and reloading |
| ChunkCodec.SavedLightSectionCount | server/src/main/kotlin/org/kryptonmc/krypton/world/chunk/ChunkManager.kt:173 | `serialize` walks one light section fewer than there are |
| ChunkCodec.SavedLongs | server/src/main/kotlin/org/kryptonmc/krypton/world/chunk/ChunkManager.kt:156-160 | the long tags written are exactly LastUpdate and InhabitedTime, holding the chunk's last update and inhabited time |
| ChunkCodec.SerializedDoc | server/src/main/kotlin/org/kryptonmc/krypton/world/chunk/ChunkManager.kt:150-201 | data version 2578 and no isLightOn tag. LastUpdate reads back as the chunk's last update, the inhabited time is written under InhabitedTime while the key `load` uses reads back as 0, and only post-features heightmaps are written |
| ChunkCodec.SerializeSections | server/src/main/kotlin/org/kryptonmc/krypton/world/chunk/ChunkManager.kt:170-191 | the section loop produces exactly the specified list of entries |
| ChunkCodec.Serialize | server/src/main/kotlin/org/kryptonmc/krypton/world/chunk/ChunkManager.kt:150-201 | the document built is exactly the specified document |
| ChunkManagement.DecodeEntry | server/src/main/kotlin/org/kryptonmc/krypton/world/chunk/ChunkManager.kt:87-108 | one pass of the section loop fails with the same error as, or ends in the same state as, one decode step |
| ChunkManagement.DecodeSections | server/src/main/kotlin/org/kryptonmc/krypton/world/chunk/ChunkManager.kt:79-109 | the in-place loop over a fresh array ends with the decoded section and light arrays, or with the decode's error |
| ChunkManagement.PrefixStep | server/src/main/kotlin/org/kryptonmc/krypton/world/chunk/ChunkManager.kt:130-131 | each type visited is either installed from the document or added to the set to prime, never both |
| ChunkManagement.PrefixComplete | server/src/main/kotlin/org/kryptonmc/krypton/world/chunk/ChunkManager.kt:129-132 | visiting all of POST_FEATURES installs the post-features heightmaps and collects exactly the missing types |
| ChunkManagement.InstallHeightmaps | server/src/main/kotlin/org/kryptonmc/krypton/world/chunk/ChunkManager.kt:129-132 | the heightmap loop installs the document's post-features heightmaps and returns the missing types |
| ChunkManagement.Outfit | server/src/main/kotlin/org/kryptonmc/krypton/world/chunk/ChunkManager.kt:126-133 | the freshly cached chunk receives the decoded block and sky nibble arrays, then the loaded heightmaps. It returns exactly the post-features types missing from the document |
| ChunkManagement.RestoreHeightmaps | server/src/main/kotlin/org/kryptonmc/krypton/world/chunk/ChunkManager.kt:129-133 | after installation and priming, the chunk has exactly the loaded heightmaps |
| ChunkManagement.ChunkManager.constructor | server/src/main/kotlin/org/kryptonmc/krypton/world/chunk/ChunkManager.kt:41-49 | a new manager has an empty cache over the given store, and so meets the cache invariant: every cached chunk belongs to this world, is filed under its own position and holds all four post-features heightmaps |
| ChunkManagement.ChunkManager.Get | server/src/main/kotlin/org/kryptonmc/krypton/world/chunk/ChunkManager.kt:51 | the cached chunk at (x, z) iff one is cached; the store is never read |
| ChunkManagement.ChunkManager.Load | server/src/main/kotlin/org/kryptonmc/krypton/world/chunk/ChunkManager.kt:71-136 | a hit returns the cached chunk with no store read. A miss reads the store and fails exactly when the document is missing or an entry is bad. Otherwise it caches the chunk that the stored document describes: StoreRead, CachePut, HeightmapsPrimed(missing), ChunkLit in that order. Afterwards the cache maps the position to the result, earlier entries are kept, every cached chunk is still filed under its own position, and no chunk that existed before is changed |
| ChunkManagement.ChunkManager.LoadFromStore | server/src/main/kotlin/org/kryptonmc/krypton/world/chunk/ChunkManager.kt:75-135 | the cache-miss path: store read, decode, then materialise or fail with the decode's error. It keeps the cache invariant and changes no chunk that existed before |
| ChunkManagement.ChunkManager.Materialise | server/src/main/kotlin/org/kryptonmc/krypton/world/chunk/ChunkManager.kt:114-134 | the new chunk holds the decoded sections and light arrays, LastUpdate, inhabitedTime and the loaded heightmaps, and is put in the cache before priming and lighting. The cache invariant still holds afterwards |
| ChunkManagement.ChunkManager.LoadAndMap | server/src/main/kotlin/org/kryptonmc/krypton/world/chunk/ChunkManager.kt:62-64 | one pass of the batch loop. A failure leaves the cache and the chunk map alone and is the position's load failure. A success files the chunk in the chunk map; a chunk not cached before is the one its stored document describes |
| ChunkManagement.BatchStep | server/src/main/kotlin/org/kryptonmc/krypton/world/chunk/ChunkManager.kt:61-65 | one pass of the batch loop takes the batch state after i positions to the state after i + 1 |
| ChunkManagement.ChunkManager.LoadAll | server/src/main/kotlin/org/kryptonmc/krypton/world/chunk/ChunkManager.kt:59-67 | on success the result has the input's length and order, and the cache and the chunk map gained exactly the listed positions, each mapped to its chunk. On failure the first failing position was not cached and its load failure is the error; the positions before it stay cached and mapped. Every other chunk-map entry is unchanged, and every newly cached chunk is the one its stored document describes |
| ChunkManagement.ChunkManager.Save | server/src/main/kotlin/org/kryptonmc/krypton/world/chunk/ChunkManager.kt:140-145 | removes the position from the cache, sets lastUpdate to the world time, then writes the serialised document under the position; every chunk left in the cache is still filed under its own position |
| ChunkManagement.ChunkManager.OnLightUpdate | server/src/main/kotlin/org/kryptonmc/krypton/world/chunk/ChunkManager.kt:147 | a resident chunk records the change in its filters and nothing else of it changes; with no resident chunk nothing happens. The cache invariant still holds afterwards |

## Left out

- The NBT codec and region files are left out. A document is a record of the tags the chunk code reads or writes, and the region store is a map from position to document.
- The palette inside a section's `Palette` and `BlockStates` tags is left out: a section is its decoded cell map, and `recount` is the `IsEmpty` test.
- A tag that is absent reads as 0, the codec library's default.
- `load` of a position with no stored document returns `NoStoredChunk`. The region file manager that would otherwise be asked is not part of this model.
- Cache eviction (size and expiry) depends on the clock and the cache library. The cache is a plain map that only `load` and `save` change.
- Concurrency is left out: the `@Volatile` fields, and the check-then-put in `load` that is not atomic. Nothing is claimed about loading a position at most once.
- The light engine (StarLight), `SWMRNibbleArray` and its save states are not part of this model.
  - A nibble array is an opaque value.
  - `saveStateOf` is a supplied function from nibble array to save state.
  - `lightChunk` is recorded as an event without an effect.
  - The light engine's `minLightSection`/`maxLightSection` are taken to equal the `WorldUtil` values.
  - `getFilledEmptyLight(world)` (ChunkManager.kt:79-80) is taken to return one filled-empty nibble per light section, `getTotalLightSections` of them (`Chunks.FilledEmptyLight`). The bound behind `LightSlotOutOfRange` and the slots `ChunkCodec.DecodedLightSlot` describes rest on that length.
- `Heightmap.update`, `setData` and `prime` are not part of this model.
  - An update is recorded in the chunk's `heightmapUpdates` log.
  - `setData` installs the data.
  - `prime` marks a type primed.
  - `Heightmap.Type` is not part of this model. `POST_FEATURES` is taken to be the four vanilla types WORLD_SURFACE, OCEAN_FLOOR, MOTION_BLOCKING and MOTION_BLOCKING_NO_LEAVES, visited in that order. The claim that every cached chunk can take `SetBlock` rests on this set.
- `preload`, `saveAll` and the `load(x, z)` overload are not part of this model: they only call `load` and `save` in a loop or with a built position.
- The world's chunk map is keyed by position rather than by the packed `toLong` value.
- The block registry is a supplied lookup function, and the registration side effect in `KryptonBlock`'s initialiser is left out.
- The transparent-on-some-faces allow-list is a supplied predicate; the block names and properties it tests are content, not logic.
- The non-light attributes of a block state are left out: hardness, friction, translation and the like.
- `Direction` is not part of this model. Its id is taken to be its declaration order, DOWN, UP, NORTH, SOUTH, WEST, EAST = 0..5.
- Biome ids, carving masks and structures are carried through unchanged as opaque values.
- The fixed empty tags that `serialize` writes (Lights, PostProcessing, Status and the rest) are not part of the document record.
- Chunks.KryptonChunk.SetBlock: requires a section index inside the array, where the source throws `ArrayIndexOutOfBoundsException`.
- Chunks.KryptonChunk.SetBlock: requires all four post-features heightmaps present. The source calls `heightmaps.getValue` only on a real change, after `section.set` has already written the cell. There a missing heightmap throws `NoSuchElementException` with the cell already written. The requirement also excludes the air-into-null and unchanged-cell calls, which the source completes without touching a heightmap. Every chunk in the manager's cache meets the requirement.
- Chunks.KryptonChunk.SetBlock: the frame clause states other cells are unchanged only up to air versus air. An air write that empties a section makes `getBlock` return the AIR constant for that section's other cells, which may have held another air state (such as cave air).
- WorldUtil.MaxSection: the closed forms hold for worlds whose section bounds lie within ±2^26, where no 32-bit wrap-around occurs. Outside that range the functions still compute the wrapped JVM values.
- Chunks.SectionIndex: the world's `sectionIndex(y)`, `sectionIndexFromY(sy)` and `sectionCount` are not part of this model. They are called at KryptonChunk.kt:67 and :81 and at ChunkManager.kt:85 and :93. They are taken to be `(y shr 4) - minSection`, `sy - minSection` and `getTotalSections`.
- Chunks.KryptonChunk.HighestSection: a section is a value, not an object. `HighestSection` returns a copy of the section, whereas the source returns the live object that later `setBlock` calls write into through `section.set` (KryptonChunk.kt:93 and :125). Aliasing between a returned section and the chunk's array is not modelled.
- ChunkManagement.ChunkManager.LoadAll: the event log after a batch is not stated. Each pass appends what `Load` appends.
