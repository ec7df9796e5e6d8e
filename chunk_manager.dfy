/**
 * The chunk cache and its region store (`ChunkManager`). The cache is a
 * plain map with no eviction; the store is a map from position to document.
 * The calls the manager makes on collaborators whose effect is not part of
 * this model (the store read, heightmap priming, the light engine) are
 * recorded, in order, in `events`.
 */
module ChunkManagement {
  import opened Wrappers
  import opened JavaInts
  import opened Sections
  import opened Chunks
  import opened ChunkCodec
  import WorldUtil

  /** A call the manager makes on its cache, its store or a collaborator. */
  datatype Event =
    | StoreRead(position: ChunkPosition)
    | CachePut(position: ChunkPosition)
    | HeightmapsPrimed(position: ChunkPosition, kinds: set<HeightmapType>)
    | ChunkLit(position: ChunkPosition)
    | CacheInvalidated(position: ChunkPosition)
    | StoreWritten(position: ChunkPosition)

  /** The post-features heightmap types in declaration order, as an `EnumSet` iterates them. */
  const POST_FEATURES_ORDER: seq<HeightmapType> := [WorldSurface, OceanFloor, MotionBlocking, MotionBlockingNoLeaves]

  /** A chunk's fields read out as one value. */
  datatype ChunkState = ChunkState(
    world: World, position: ChunkPosition, sections: seq<Option<ChunkSection>>,
    blockNibbles: seq<Nibble>, skyNibbles: seq<Nibble>, biomes: seq<int>,
    carvingMasks: (seq<int>, seq<int>), structures: Opaque, lastUpdate: Int64, inhabitedTime: Int64,
    heightmaps: map<HeightmapType, HeightmapData>, heightmapUpdates: seq<HeightmapUpdate>,
    blockChangedLightSectionFilter: set<nat>, skyChangedLightSectionFilter: set<nat>)

  ghost function StateOf(c: KryptonChunk): ChunkState
    reads c, c.sections
  {
    ChunkState(c.world, c.position, c.sections[..], c.blockNibbles, c.skyNibbles, c.biomes,
      c.carvingMasks, c.structures, c.lastUpdate, c.inhabitedTime,
      c.heightmaps, c.heightmapUpdates, c.blockChangedLightSectionFilter, c.skyChangedLightSectionFilter)
  }

  /**
   * `s` is the state `load` gives the chunk at `position` built from `level`,
   * whose section list decoded to `d`.
   */
  ghost predicate LoadedState(s: ChunkState, w: World, position: ChunkPosition, level: LevelDoc, d: Decoded)
  {
    && s.world == w
    && s.position == position
    && s.sections == d.sections
    && s.blockNibbles == d.blockNibbles
    && s.skyNibbles == d.skyNibbles
    && s.biomes == level.biomes
    && s.carvingMasks == level.carvingMasks
    && s.structures == level.structures
    && s.lastUpdate == LongOr0(level, LAST_UPDATE_KEY)
    && s.inhabitedTime == LongOr0(level, INHABITED_TIME_LOAD_KEY)
    && s.heightmaps == LoadedHeightmaps(level.heightmaps)
    && s.heightmapUpdates == []
    && s.blockChangedLightSectionFilter == {}
    && s.skyChangedLightSectionFilter == {}
  }

  /**
   * `c` is the chunk `load` builds at `position` from `level`, whose section
   * list decoded to `d`.
   */
  ghost predicate Materialises(c: KryptonChunk, w: World, position: ChunkPosition, level: LevelDoc, d: Decoded)
    reads c, c.sections
  {
    c.Valid() && LoadedState(StateOf(c), w, position, level, d)
  }

  /**
   * One pass of the section loop: installs the entry's section and light
   * arrays, or reports the entry that indexes outside them.
   */
  method DecodeEntry(w: World, lightOn: bool, sections: array<Option<ChunkSection>>,
                     blockNibbles: seq<Nibble>, skyNibbles: seq<Nibble>, sectionData: SectionDoc)
      returns (r: Result<(seq<Nibble>, seq<Nibble>), LoadError>)
    requires Shaped(w, Decoded(sections[..], blockNibbles, skyNibbles))
    modifies sections
    ensures var step := DecodeStep(w, lightOn, Decoded(old(sections[..]), blockNibbles, skyNibbles), sectionData);
      && (r.Failure? <==> step.Failure?)
      && (r.Failure? ==> r.error == step.error)
      && (r.Success? ==> step.value == Decoded(sections[..], r.value.0, r.value.1))
  {
    var bn, sn := blockNibbles, skyNibbles;
    if sectionData.palette.Some? && sectionData.hasBlockStates {
      var section := ChunkSection(sectionData.y, sectionData.palette.value);
      if !section.IsEmpty() {
        var k := SectionIndexFromY(w, sectionData.y);
        if !(0 <= k < sections.Length) {
          return Failure(SectionSlotOutOfRange(sectionData.y));
        }
        sections[k] := Some(section);
      }
    }
    if lightOn {
      var l := sectionData.y - WorldUtil.MinLightSection(w.heights);
      if !(0 <= l < |bn|) {
        return Failure(LightSlotOutOfRange(sectionData.y));
      }
      bn := bn[l := BlockNibbleOf(sectionData)];
      if w.hasSkylight {
        sn := sn[l := SkyNibbleOf(sectionData)];
      }
    }
    r := Success((bn, sn));
  }

  /**
   * The section loop of `load`: fills a fresh section array and the two
   * light arrays entry by entry, stopping at the first entry that indexes
   * outside them.
   */
  method DecodeSections(w: World, lightOn: bool, docs: seq<SectionDoc>)
      returns (r: Result<array<Option<ChunkSection>>, LoadError>, blockNibbles: seq<Nibble>, skyNibbles: seq<Nibble>)
    requires WellFormed(w)
    ensures r.Failure? ==> Decode(w, lightOn, docs) == Failure(r.error)
    ensures r.Success? ==>
      fresh(r.value) && Decode(w, lightOn, docs) == Success(Decoded(r.value[..], blockNibbles, skyNibbles))
  {
    blockNibbles := FilledEmptyLight(w);
    skyNibbles := FilledEmptyLight(w);
    var sections := new Option<ChunkSection>[SectionCount(w)](_ => None);
    assert docs[..0] == [];
    assert sections[..] == InitialDecoded(w).sections;
    var i := 0;
    while i < |docs|
      invariant 0 <= i <= |docs|
      invariant Decode(w, lightOn, docs[..i]) == Success(Decoded(sections[..], blockNibbles, skyNibbles))
    {
      assert docs[..i + 1][..i] == docs[..i];
      var step := DecodeEntry(w, lightOn, sections, blockNibbles, skyNibbles, docs[i]);
      if step.Failure? {
        DecodeFailurePersists(w, lightOn, docs, i + 1);
        return Failure(step.error), blockNibbles, skyNibbles;
      }
      blockNibbles, skyNibbles := step.value.0, step.value.1;
      i := i + 1;
    }
    assert docs[..i] == docs;
    r := Success(sections);
  }

  /** The heightmaps of the first `j` post-features kinds that the document holds. */
  function HeldPrefix(heightmaps: map<HeightmapType, HeightmapData>, j: nat): (r: map<HeightmapType, HeightmapData>)
    requires j <= |POST_FEATURES_ORDER|
  {
    map t | t in POST_FEATURES_ORDER[..j] && t in heightmaps :: heightmaps[t]
  }

  /** The first `j` post-features kinds that the document lacks. */
  function LackedPrefix(heightmaps: map<HeightmapType, HeightmapData>, j: nat): (r: set<HeightmapType>)
    requires j <= |POST_FEATURES_ORDER|
  {
    set t | t in POST_FEATURES_ORDER[..j] && t !in heightmaps
  }

  /** Taking one more kind either adds its heightmap or adds it to the lacked ones. */
  lemma PrefixStep(heightmaps: map<HeightmapType, HeightmapData>, j: nat)
    requires j < |POST_FEATURES_ORDER|
    ensures var kind := POST_FEATURES_ORDER[j];
      && HeldPrefix(heightmaps, j + 1)
         == (if kind in heightmaps then HeldPrefix(heightmaps, j)[kind := heightmaps[kind]] else HeldPrefix(heightmaps, j))
      && LackedPrefix(heightmaps, j + 1)
         == (if kind in heightmaps then LackedPrefix(heightmaps, j) else LackedPrefix(heightmaps, j) + {kind})
  {
    assert POST_FEATURES_ORDER[..j + 1] == POST_FEATURES_ORDER[..j] + [POST_FEATURES_ORDER[j]];
  }

  /** The whole order covers exactly the post-features kinds. */
  lemma PrefixComplete(heightmaps: map<HeightmapType, HeightmapData>)
    ensures HeldPrefix(heightmaps, |POST_FEATURES_ORDER|) == SavedHeightmaps(heightmaps)
    ensures LackedPrefix(heightmaps, |POST_FEATURES_ORDER|) == MissingHeightmaps(heightmaps)
  {
    assert POST_FEATURES_ORDER[..|POST_FEATURES_ORDER|] == POST_FEATURES_ORDER;
  }

  /**
   * The heightmap loop of `load`: installs each post-features heightmap the
   * document holds and returns the ones it lacks.
   */
  method InstallHeightmaps(chunk: KryptonChunk, heightmaps: map<HeightmapType, HeightmapData>)
      returns (missing: set<HeightmapType>)
    modifies chunk`heightmaps
    ensures chunk.heightmaps == old(chunk.heightmaps) + SavedHeightmaps(heightmaps)
    ensures missing == MissingHeightmaps(heightmaps)
  {
    missing := {};
    var j := 0;
    while j < |POST_FEATURES_ORDER|
      invariant 0 <= j <= |POST_FEATURES_ORDER|
      invariant chunk.heightmaps == old(chunk.heightmaps) + HeldPrefix(heightmaps, j)
      invariant missing == LackedPrefix(heightmaps, j)
    {
      var kind := POST_FEATURES_ORDER[j];
      PrefixStep(heightmaps, j);
      if kind in heightmaps {
        chunk.SetHeightmap(kind, heightmaps[kind]);
      } else {
        missing := missing + {kind};
      }
      j := j + 1;
    }
    PrefixComplete(heightmaps);
  }

  /**
   * The heightmap part of `load`: the document's post-features heightmaps
   * are installed, then the missing ones are primed.
   */
  method RestoreHeightmaps(chunk: KryptonChunk, heightmaps: map<HeightmapType, HeightmapData>)
      returns (missing: set<HeightmapType>)
    requires chunk.heightmaps == map[]
    modifies chunk`heightmaps
    ensures chunk.heightmaps == LoadedHeightmaps(heightmaps)
    ensures missing == MissingHeightmaps(heightmaps)
  {
    missing := InstallHeightmaps(chunk, heightmaps);
    PrimeHeightmaps(chunk, missing);
    LoadedHeightmapsSplit(heightmaps);
  }

  /** Gives a freshly built chunk its decoded light arrays, then its restored or primed heightmaps. */
  method Outfit(chunk: KryptonChunk, blockNibbles: seq<Nibble>, skyNibbles: seq<Nibble>,
                heightmaps: map<HeightmapType, HeightmapData>) returns (missing: set<HeightmapType>)
    requires chunk.heightmaps == map[]
    modifies chunk`blockNibbles, chunk`skyNibbles, chunk`heightmaps
    ensures chunk.blockNibbles == blockNibbles && chunk.skyNibbles == skyNibbles
    ensures chunk.heightmaps == LoadedHeightmaps(heightmaps)
    ensures missing == MissingHeightmaps(heightmaps)
  {
    chunk.blockNibbles := blockNibbles;
    chunk.skyNibbles := skyNibbles;
    missing := RestoreHeightmaps(chunk, heightmaps);
  }

  /** `c` may sit in the cache of world `w` under `position`: its own position, a world of the right shape, all four post-features heightmaps. */
  ghost predicate Resident(c: KryptonChunk, w: World, position: ChunkPosition)
    reads c
  {
    c.Valid() && c.world == w && c.position == position && POST_FEATURES <= c.heightmaps.Keys
  }

  /** Every chunk of `cache` is resident under its key. */
  ghost predicate AllResident(cache: map<ChunkPosition, KryptonChunk>, w: World)
    reads cache.Values
  {
    forall p {:trigger cache[p]} :: p in cache ==> Resident(cache[p], w, p)
  }

  /** Why `load` fails for a position that is not resident, or None when it succeeds. */
  function LoadFailure(w: World, store: map<ChunkPosition, ChunkDoc>, position: ChunkPosition): Option<LoadError>
    requires WellFormed(w)
  {
    if position !in store then Some(NoStoredChunk)
    else
      var level := store[position].level;
      var decoded := Decode(w, level.isLightOn.Some?, level.sections);
      if decoded.Failure? then Some(decoded.error) else None
  }

  /** `c` is the chunk `load` builds at `position` from that position's stored document. */
  ghost predicate LoadedFrom(c: KryptonChunk, w: World, store: map<ChunkPosition, ChunkDoc>, position: ChunkPosition)
    requires WellFormed(w)
    reads c, c.sections
  {
    && position in store
    && var level := store[position].level;
    && var decoded := Decode(w, level.isLightOn.Some?, level.sections);
    && decoded.Success?
    && LoadedState(StateOf(c), w, position, level, decoded.value)
  }

  /**
   * After the first `i` positions of a batch: `chunks` lists their chunks,
   * the cache and the chunk map gained exactly those positions, the chunk
   * map files each under the cached chunk, and every other entry of either
   * map is as it was.
   */
  ghost predicate BatchState(cache0: map<ChunkPosition, KryptonChunk>, map0: map<ChunkPosition, KryptonChunk>,
                             cache: map<ChunkPosition, KryptonChunk>, chunkMap: map<ChunkPosition, KryptonChunk>,
                             positions: seq<ChunkPosition>, chunks: seq<KryptonChunk>, i: nat)
  {
    && i <= |positions| && |chunks| == i
    && (forall p :: p in cache <==> p in cache0 || p in positions[..i])
    && (forall p :: p in chunkMap <==> p in map0 || p in positions[..i])
    && (forall p :: p in cache0 ==> cache[p] == cache0[p])
    && (forall j :: 0 <= j < i ==> cache[positions[j]] == chunks[j])
    && (forall p :: p in positions[..i] ==> chunkMap[p] == cache[p])
    && (forall p :: p in map0 && p !in positions[..i] ==> chunkMap[p] == map0[p])
  }

  /** Loading and mapping position `i` of a batch moves its state from `i` to `i + 1`. */
  lemma BatchStep(cache0: map<ChunkPosition, KryptonChunk>, map0: map<ChunkPosition, KryptonChunk>,
                  cache: map<ChunkPosition, KryptonChunk>, chunkMap: map<ChunkPosition, KryptonChunk>,
                  cache': map<ChunkPosition, KryptonChunk>, chunkMap': map<ChunkPosition, KryptonChunk>,
                  positions: seq<ChunkPosition>, chunks: seq<KryptonChunk>, i: nat, c: KryptonChunk)
    requires BatchState(cache0, map0, cache, chunkMap, positions, chunks, i) && i < |positions|
    requires positions[i] in cache ==> c == cache[positions[i]] && cache' == cache
    requires positions[i] !in cache ==> cache' == cache[positions[i] := c]
    requires chunkMap' == chunkMap[positions[i] := c]
    ensures BatchState(cache0, map0, cache', chunkMap', positions, chunks + [c], i + 1)
  {
    assert positions[..i + 1] == positions[..i] + [positions[i]];
  }

  /** Filing a resident chunk under its own position keeps every entry resident. */
  lemma ResidentPut(cache: map<ChunkPosition, KryptonChunk>, w: World, position: ChunkPosition, c: KryptonChunk)
    requires AllResident(cache, w) && Resident(c, w, position)
    ensures AllResident(cache[position := c], w)
  {
  }

  class ChunkManager {
    const world: World
    /** The resident chunks. */
    var cache: map<ChunkPosition, KryptonChunk>
    /** The region store: the persisted document of each saved chunk. */
    var store: map<ChunkPosition, ChunkDoc>
    /** The world's map of loaded chunks, filled by the batch load. */
    var chunkMap: map<ChunkPosition, KryptonChunk>
    /** The calls made so far, oldest first. */
    var events: seq<Event>

    /** Every resident chunk is filed under its own position and belongs to this world. */
    ghost predicate Valid()
      reads this`cache, cache.Values
    {
      && WellFormed(world)
      && AllResident(cache, world)
    }

    constructor (world: World, store: map<ChunkPosition, ChunkDoc>)
      requires WellFormed(world)
      ensures Valid()
      ensures this.world == world && this.store == store
      ensures cache == map[] && chunkMap == map[] && events == []
    {
      this.world := world;
      this.store := store;
      cache := map[];
      chunkMap := map[];
      events := [];
    }

    /** A cache probe: the resident chunk at (x, z), if any. */
    function Get(x: Int32, z: Int32): (r: Option<KryptonChunk>)
      reads this
      ensures r.Some? <==> ChunkPosition(x, z) in cache
      ensures r.Some? ==> r.value == cache[ChunkPosition(x, z)]
    {
      var position := ChunkPosition(x, z);
      if position in cache then Some(cache[position]) else None
    }

    /**
     * The chunk at `position`: the resident one if cached, otherwise decoded
     * from the store and published in the cache before its heightmaps are
     * primed and it is lit.
     */
    method Load(position: ChunkPosition) returns (r: Result<KryptonChunk, LoadError>)
      requires Valid()
      modifies this`cache, this`events
      ensures Valid()
      ensures position in old(cache) ==>
        r == Success(old(cache)[position]) && cache == old(cache) && events == old(events)
      ensures position !in old(cache) ==> (r.Failure? <==> LoadFailure(world, store, position).Some?)
      ensures position !in old(cache) && r.Failure? ==>
        && LoadFailure(world, store, position) == Some(r.error)
        && cache == old(cache) && events == old(events) + [StoreRead(position)]
      ensures position !in old(cache) && r.Success? ==>
        && fresh(r.value) && fresh(r.value.sections)
        && LoadedFrom(r.value, world, store, position)
        && cache == old(cache)[position := r.value]
        && events == old(events) + [StoreRead(position), CachePut(position),
             HeightmapsPrimed(position, MissingHeightmaps(store[position].level.heightmaps)), ChunkLit(position)]
      ensures r.Success? ==> position in cache && cache[position] == r.value
      ensures forall c: KryptonChunk {:trigger StateOf(c)} :: old(allocated(c)) ==> StateOf(c) == old(StateOf(c))
      ensures forall p :: p in old(cache) ==> p in cache && cache[p] == old(cache)[p]
    {
      if position in cache {
        return Success(cache[position]);
      }
      r := LoadFromStore(position);
    }

    /** The cache-miss half of `load`: read the document, decode it, materialise the chunk. */
    method LoadFromStore(position: ChunkPosition) returns (r: Result<KryptonChunk, LoadError>)
      requires Valid() && position !in cache
      modifies this`cache, this`events
      ensures Valid()
      ensures r.Failure? <==> LoadFailure(world, store, position).Some?
      ensures forall c: KryptonChunk {:trigger StateOf(c)} :: old(allocated(c)) ==> StateOf(c) == old(StateOf(c))
      ensures r.Failure? ==>
        && LoadFailure(world, store, position) == Some(r.error)
        && cache == old(cache) && events == old(events) + [StoreRead(position)]
      ensures r.Success? ==>
        && fresh(r.value) && fresh(r.value.sections)
        && LoadedFrom(r.value, world, store, position)
        && cache == old(cache)[position := r.value]
        && events == old(events) + [StoreRead(position), CachePut(position),
             HeightmapsPrimed(position, MissingHeightmaps(store[position].level.heightmaps)), ChunkLit(position)]
    {
      events := events + [StoreRead(position)];
      if position !in store {
        return Failure(NoStoredChunk);
      }
      var level := store[position].level;
      var decoded, blockNibbles, skyNibbles := DecodeSections(world, level.isLightOn.Some?, level.sections);
      if decoded.Failure? {
        return Failure(decoded.error);
      }
      var chunk := Materialise(position, level, decoded.value, blockNibbles, skyNibbles);
      r := Success(chunk);
    }

    /**
     * Builds the chunk from a decoded document, publishes it in the cache,
     * restores or primes its heightmaps and hands it to the light engine.
     */
    method Materialise(position: ChunkPosition, level: LevelDoc, sections: array<Option<ChunkSection>>,
                       blockNibbles: seq<Nibble>, skyNibbles: seq<Nibble>) returns (chunk: KryptonChunk)
      requires Valid() && Shaped(world, Decoded(sections[..], blockNibbles, skyNibbles))
      modifies this`cache, this`events
      ensures Valid()
      ensures fresh(chunk) && chunk.sections == sections
      ensures forall c: KryptonChunk {:trigger StateOf(c)} :: old(allocated(c)) ==> StateOf(c) == old(StateOf(c))
      ensures Materialises(chunk, world, position, level, Decoded(old(sections[..]), blockNibbles, skyNibbles))
      ensures cache == old(cache)[position := chunk]
      ensures events == old(events) + [CachePut(position),
        HeightmapsPrimed(position, MissingHeightmaps(level.heightmaps)), ChunkLit(position)]
    {
      chunk := new KryptonChunk(world, position, sections, level.biomes,
        LongOr0(level, LAST_UPDATE_KEY), LongOr0(level, INHABITED_TIME_LOAD_KEY),
        level.carvingMasks, level.structures);
      cache := cache[position := chunk];
      events := events + [CachePut(position)];
      var missing := Outfit(chunk, blockNibbles, skyNibbles, level.heightmaps);
      events := events + [HeightmapsPrimed(position, missing), ChunkLit(position)];
      ResidentPut(old(cache), world, position, chunk);
    }

    /** One step of the batch load: loads `position` and records the chunk in the world's chunk map. */
    method LoadAndMap(position: ChunkPosition) returns (r: Result<KryptonChunk, LoadError>)
      requires Valid()
      modifies this`cache, this`events, this`chunkMap
      ensures Valid()
      ensures forall c: KryptonChunk {:trigger StateOf(c)} :: old(allocated(c)) ==> StateOf(c) == old(StateOf(c))
      ensures r.Failure? ==>
        && position !in old(cache) && LoadFailure(world, store, position) == Some(r.error)
        && cache == old(cache) && chunkMap == old(chunkMap)
      ensures r.Success? ==> chunkMap == old(chunkMap)[position := r.value]
      ensures r.Success? && position in old(cache) ==> r.value == old(cache)[position] && cache == old(cache)
      ensures r.Success? && position !in old(cache) ==>
        cache == old(cache)[position := r.value] && LoadedFrom(r.value, world, store, position)
    {
      r := Load(position);
      if r.Success? {
        chunkMap := chunkMap[position := r.value];
      }
    }

    /**
     * Loads every position in order and records each chunk in the world's
     * chunk map, stopping at the first position that fails to load. The
     * positions before it stay loaded and mapped; on success the list
     * matches the input position by position.
     */
    method LoadAll(positions: seq<ChunkPosition>) returns (r: Result<seq<KryptonChunk>, LoadError>)
      requires Valid()
      modifies this`cache, this`events, this`chunkMap
      ensures Valid()
      ensures r.Success? ==> BatchState(old(cache), old(chunkMap), cache, chunkMap, positions, r.value, |positions|)
      ensures r.Failure? ==> exists k: nat, chunks ::
        && BatchState(old(cache), old(chunkMap), cache, chunkMap, positions, chunks, k)
        && k < |positions| && positions[k] !in old(cache)
        && LoadFailure(world, store, positions[k]) == Some(r.error)
      ensures forall p {:trigger cache[p]} :: p in cache && p !in old(cache) ==> LoadedFrom(cache[p], world, store, p)
    {
      var chunks: seq<KryptonChunk> := [];
      var i := 0;
      while i < |positions|
        invariant BatchState(old(cache), old(chunkMap), cache, chunkMap, positions, chunks, i)
        invariant Valid()
        invariant forall p {:trigger cache[p]} :: p in cache && p !in old(cache) ==> LoadedFrom(cache[p], world, store, p)
      {
        ghost var before, beforeMap := cache, chunkMap;
        var loaded := LoadAndMap(positions[i]);
        if loaded.Failure? {
          return Failure(loaded.error);
        }
        BatchStep(old(cache), old(chunkMap), before, beforeMap, cache, chunkMap, positions, chunks, i, loaded.value);
        chunks := chunks + [loaded.value];
        i := i + 1;
      }
      r := Success(chunks);
    }

    /**
     * Saves a chunk: drops it from the cache, stamps its last update with
     * the world time `time`, then writes its document to the store.
     */
    method Save(chunk: KryptonChunk, time: Int64, saveStateOf: Nibble -> Option<SaveState>)
      requires Valid() && chunk.Valid()
      modifies this`cache, this`store, this`events, chunk`lastUpdate
      ensures Valid()
      ensures cache == old(cache) - {chunk.position}
      ensures chunk.lastUpdate == time
      ensures store == old(store)[chunk.position := SerializedDoc(chunk, saveStateOf)]
      ensures events == old(events) + [CacheInvalidated(chunk.position), StoreWritten(chunk.position)]
    {
      var lastUpdate := time;
      cache := cache - {chunk.position};
      events := events + [CacheInvalidated(chunk.position)];
      chunk.lastUpdate := lastUpdate;
      var doc := Serialize(chunk, saveStateOf);
      store := store[chunk.position := doc];
      events := events + [StoreWritten(chunk.position)];
    }

    /** Forwards a light change to the chunk at (x, z) when it is resident; otherwise does nothing. */
    method OnLightUpdate(layer: LightLayer, x: Int32, y: int, z: Int32)
      requires Valid()
      modifies if ChunkPosition(x, z) in cache then {cache[ChunkPosition(x, z)]} else {}
      ensures Valid()
      ensures ChunkPosition(x, z) in cache ==>
        var c := cache[ChunkPosition(x, z)];
        && LightChangeRecorded(c, layer, y, old(c.skyChangedLightSectionFilter), old(c.blockChangedLightSectionFilter))
        && c.heightmaps == old(c.heightmaps) && c.heightmapUpdates == old(c.heightmapUpdates)
        && c.blockNibbles == old(c.blockNibbles) && c.skyNibbles == old(c.skyNibbles)
        && c.lastUpdate == old(c.lastUpdate) && c.inhabitedTime == old(c.inhabitedTime)
    {
      var position := ChunkPosition(x, z);
      if position in cache {
        cache[position].OnLightUpdate(layer, y);
      }
    }
  }
}
