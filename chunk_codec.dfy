/**
 * The persisted form of a chunk and the rules `ChunkManager` applies when
 * decoding one and when serialising one. The structured-document codec
 * itself is not part of this model: a document is a record of the tags the
 * chunk code reads or writes, and a long tag that is absent reads as 0.
 */
module ChunkCodec {
  import opened Wrappers
  import opened JavaInts
  import opened Blocks
  import opened Sections
  import opened Chunks
  import WorldUtil

  const CHUNK_DATA_VERSION: int := 2578
  const LAST_UPDATE_KEY: string := "LastUpdate"
  /** The key `load` reads the inhabited time from. */
  const INHABITED_TIME_LOAD_KEY: string := "inhabitedTime"
  /** The key `serialize` writes the inhabited time under. */
  const INHABITED_TIME_SAVE_KEY: string := "InhabitedTime"

  type Byte = x: int | -128 <= x < 128

  /**
   * One entry of the `Sections` list. `palette` stands for the `Palette` tag
   * already decoded into cells; `hasBlockStates` for the presence of the
   * `BlockStates` long array.
   */
  datatype SectionDoc = SectionDoc(
    y: Byte,
    palette: Option<map<LocalPos, KryptonBlock>>,
    hasBlockStates: bool,
    blockLight: Option<seq<int>>,
    blockLightState: Option<int>,
    skyLight: Option<seq<int>>,
    skyLightState: Option<int>)

  /** The `Level` compound. `longs` holds the long-valued tags by name. */
  datatype LevelDoc = LevelDoc(
    biomes: seq<int>,
    carvingMasks: (seq<int>, seq<int>),
    longs: map<string, Int64>,
    structures: Opaque,
    xPos: Option<Int32>,
    zPos: Option<Int32>,
    isLightOn: Option<bool>,
    sections: seq<SectionDoc>,
    heightmaps: map<HeightmapType, HeightmapData>)

  datatype ChunkDoc = ChunkDoc(dataVersion: int, level: LevelDoc)

  /** A long tag, 0 when absent. */
  function LongOr0(level: LevelDoc, key: string): (r: Int64)
    ensures key in level.longs ==> r == level.longs[key]
    ensures key !in level.longs ==> r == 0
  {
    if key in level.longs then level.longs[key] else 0
  }

  // ---------------------------------------------------------------- decoding

  /** Why a load fails: nothing stored, or an entry whose Y indexes outside an array. */
  datatype LoadError = NoStoredChunk | SectionSlotOutOfRange(y: int) | LightSlotOutOfRange(y: int)

  /** What the decode loop produces: the section slots and the two light arrays. */
  datatype Decoded = Decoded(sections: seq<Option<ChunkSection>>, blockNibbles: seq<Nibble>, skyNibbles: seq<Nibble>)

  /** The section an entry with both a palette and block states decodes to. */
  function SectionOf(sd: SectionDoc): (r: ChunkSection)
    requires sd.palette.Some?
    ensures r.y == sd.y
    ensures forall q :: q in sd.palette.value ==> r.Get(q) == sd.palette.value[q]
    ensures forall q :: q !in sd.palette.value ==> r.Get(q) == AIR
  {
    ChunkSection(sd.y, sd.palette.value)
  }

  /** An entry yields a section: palette and block states present, and not empty after recounting. */
  predicate Installs(sd: SectionDoc)
    ensures Installs(sd) <==>
      sd.palette.Some? && sd.hasBlockStates && exists q :: !SectionOf(sd).Get(q).isAir
  {
    sd.palette.Some? && sd.hasBlockStates && !SectionOf(sd).IsEmpty()
  }

  /** An entry yields the section of slot `k`. */
  predicate InstallsAt(w: World, sd: SectionDoc, k: int) {
    Installs(sd) && SectionIndexFromY(w, sd.y) == k
  }

  /** The light-array index of an entry: `y - minLightSection`. */
  function LightSlot(w: World, sd: SectionDoc): int {
    sd.y - WorldUtil.MinLightSection(w.heights)
  }

  function BlockNibbleOf(sd: SectionDoc): (r: Nibble)
    ensures r.Loaded? && r.data == sd.blockLight
    ensures sd.blockLightState.Some? ==> r.state == sd.blockLightState.value
    ensures sd.blockLightState.None? ==> r.state == 0
  {
    Loaded(sd.blockLight, sd.blockLightState.GetOr(0))
  }

  function SkyNibbleOf(sd: SectionDoc): (r: Nibble)
    ensures r.Loaded? && r.data == sd.skyLight
    ensures sd.skyLightState.Some? ==> r.state == sd.skyLightState.value
    ensures sd.skyLightState.None? ==> r.state == 0
  {
    Loaded(sd.skyLight, sd.skyLightState.GetOr(0))
  }

  /** Before any entry: every slot null, both light arrays filled-empty. */
  function InitialDecoded(w: World): (d: Decoded)
    requires WellFormed(w)
    ensures |d.sections| == SectionCount(w)
    ensures forall k :: 0 <= k < |d.sections| ==> d.sections[k] == None
    ensures d.blockNibbles == FilledEmptyLight(w) && d.skyNibbles == FilledEmptyLight(w)
  {
    Decoded(seq(SectionCount(w), _ => None), FilledEmptyLight(w), FilledEmptyLight(w))
  }

  /** The sizes every decode state has. */
  predicate Shaped(w: World, d: Decoded) {
    && |d.sections| == SectionCount(w)
    && |d.blockNibbles| == LightSectionCount(w)
    && |d.skyNibbles| == LightSectionCount(w)
  }

  /** Reading this entry indexes outside the section array or the light arrays. */
  predicate BadEntry(w: World, lightOn: bool, sd: SectionDoc) {
    || (Installs(sd) && !(0 <= SectionIndexFromY(w, sd.y) < SectionCount(w)))
    || (lightOn && !(0 <= LightSlot(w, sd) < LightSectionCount(w)))
  }

  /** One iteration of the decode loop. */
  function DecodeStep(w: World, lightOn: bool, d: Decoded, sd: SectionDoc): (r: Result<Decoded, LoadError>)
    requires Shaped(w, d)
    ensures r.Success? ==> Shaped(w, r.value)
    ensures r.Failure? <==> BadEntry(w, lightOn, sd)
  {
    var k := SectionIndexFromY(w, sd.y);
    if Installs(sd) && !(0 <= k < |d.sections|) then Failure(SectionSlotOutOfRange(sd.y))
    else
      var sections := if Installs(sd) then d.sections[k := Some(SectionOf(sd))] else d.sections;
      if !lightOn then Success(Decoded(sections, d.blockNibbles, d.skyNibbles))
      else
        var l := LightSlot(w, sd);
        if !(0 <= l < |d.blockNibbles|) then Failure(LightSlotOutOfRange(sd.y))
        else
          var blockNibbles := d.blockNibbles[l := BlockNibbleOf(sd)];
          var skyNibbles := if w.hasSkylight then d.skyNibbles[l := SkyNibbleOf(sd)] else d.skyNibbles;
          Success(Decoded(sections, blockNibbles, skyNibbles))
  }

  /** The decode loop over the `Sections` list; `lightOn` is whether `isLightOn` is present. */
  function Decode(w: World, lightOn: bool, docs: seq<SectionDoc>): (r: Result<Decoded, LoadError>)
    requires WellFormed(w)
    ensures r.Success? ==> Shaped(w, r.value)
    decreases |docs|
  {
    if docs == [] then Success(InitialDecoded(w))
    else
      var prev := Decode(w, lightOn, docs[..|docs| - 1]);
      if prev.Failure? then prev else DecodeStep(w, lightOn, prev.value, docs[|docs| - 1])
  }

  /** One step changes section slot `k` only when the entry yields that slot. */
  lemma StepSectionSlot(w: World, lightOn: bool, d: Decoded, sd: SectionDoc, k: int)
    requires Shaped(w, d) && DecodeStep(w, lightOn, d, sd).Success?
    requires 0 <= k < |d.sections|
    ensures DecodeStep(w, lightOn, d, sd).value.sections[k] ==
      if InstallsAt(w, sd, k) then Some(SectionOf(sd)) else d.sections[k]
  {
  }

  /** One step changes light slot `l` only when the entry's light index is `l` and the light flag is on. */
  lemma StepLightSlot(w: World, lightOn: bool, d: Decoded, sd: SectionDoc, l: int)
    requires Shaped(w, d) && DecodeStep(w, lightOn, d, sd).Success?
    requires 0 <= l < |d.blockNibbles|
    ensures var d' := DecodeStep(w, lightOn, d, sd).value;
      && d'.blockNibbles[l] == (if lightOn && LightSlot(w, sd) == l then BlockNibbleOf(sd) else d.blockNibbles[l])
      && d'.skyNibbles[l] ==
           (if lightOn && w.hasSkylight && LightSlot(w, sd) == l then SkyNibbleOf(sd) else d.skyNibbles[l])
  {
  }

  /** A successful decode of a non-empty list is a successful decode of all but its last entry, then one step. */
  lemma DecodeLast(w: World, lightOn: bool, docs: seq<SectionDoc>)
    requires WellFormed(w) && docs != [] && Decode(w, lightOn, docs).Success?
    ensures Decode(w, lightOn, docs[..|docs| - 1]).Success?
    ensures Decode(w, lightOn, docs) ==
      DecodeStep(w, lightOn, Decode(w, lightOn, docs[..|docs| - 1]).value, docs[|docs| - 1])
  {
  }

  /** Once a prefix of the list fails, the whole decode fails with the same error. */
  lemma {:induction false} DecodeFailurePersists(w: World, lightOn: bool, docs: seq<SectionDoc>, i: nat)
    requires WellFormed(w) && i <= |docs|
    requires Decode(w, lightOn, docs[..i]).Failure?
    ensures Decode(w, lightOn, docs) == Decode(w, lightOn, docs[..i])
    decreases |docs|
  {
    if i < |docs| {
      var init := docs[..|docs| - 1];
      assert init[..i] == docs[..i];
      DecodeFailurePersists(w, lightOn, init, i);
    } else {
      assert docs[..i] == docs;
    }
  }

  /** A decode fails exactly when some entry indexes outside an array. */
  lemma {:induction false} DecodeFailsIff(w: World, lightOn: bool, docs: seq<SectionDoc>)
    requires WellFormed(w)
    ensures Decode(w, lightOn, docs).Failure? <==> exists j :: 0 <= j < |docs| && BadEntry(w, lightOn, docs[j])
    decreases |docs|
  {
    if docs != [] {
      var init := docs[..|docs| - 1];
      DecodeFailsIff(w, lightOn, init);
      assert forall j :: 0 <= j < |init| ==> init[j] == docs[j];
      if exists j :: 0 <= j < |docs| && BadEntry(w, lightOn, docs[j]) {
        var j :| 0 <= j < |docs| && BadEntry(w, lightOn, docs[j]);
        if j < |init| {
          assert BadEntry(w, lightOn, init[j]);
        }
      }
    }
  }

  /** The last entry of `docs` that yields slot `k` is entry `j`. */
  ghost predicate LastInstallerAt(w: World, docs: seq<SectionDoc>, j: int, k: int) {
    && 0 <= j < |docs|
    && InstallsAt(w, docs[j], k)
    && forall j' :: j < j' < |docs| ==> !InstallsAt(w, docs[j'], k)
  }

  /**
   * What slot `k` holds after decoding `docs`: a section exactly when some
   * entry yields that slot, and then the section of the last such entry.
   */
  ghost predicate SlotHolds(w: World, docs: seq<SectionDoc>, slot: Option<ChunkSection>, k: int) {
    && (slot.Some? <==> exists j :: 0 <= j < |docs| && InstallsAt(w, docs[j], k))
    && (slot.Some? ==> exists j :: LastInstallerAt(w, docs, j, k) && slot.value == SectionOf(docs[j]))
  }

  /** Appending one entry keeps `SlotHolds` when the slot is updated as one decode step does. */
  lemma SlotHoldsAppend(w: World, init: seq<SectionDoc>, sd: SectionDoc, slot0: Option<ChunkSection>, k: int)
    requires SlotHolds(w, init, slot0, k)
    ensures SlotHolds(w, init + [sd], if InstallsAt(w, sd, k) then Some(SectionOf(sd)) else slot0, k)
  {
    var docs := init + [sd];
    assert forall j :: 0 <= j < |init| ==> docs[j] == init[j];
    if InstallsAt(w, sd, k) {
      assert LastInstallerAt(w, docs, |init|, k);
    } else if slot0.Some? {
      var j :| LastInstallerAt(w, init, j, k) && slot0.value == SectionOf(init[j]);
      assert LastInstallerAt(w, docs, j, k);
    }
  }

  /**
   * Slot `k` of a decoded chunk holds a section exactly when some entry
   * yields that slot, and then it holds the section of the last such entry;
   * every other slot stays null.
   */
  lemma {:induction false} DecodedSectionSlot(w: World, lightOn: bool, docs: seq<SectionDoc>, k: int)
    requires WellFormed(w) && Decode(w, lightOn, docs).Success?
    requires 0 <= k < SectionCount(w)
    ensures SlotHolds(w, docs, Decode(w, lightOn, docs).value.sections[k], k)
    decreases |docs|
  {
    if docs == [] {
      assert Decode(w, lightOn, docs).value.sections[k] == None;
    } else {
      var init := docs[..|docs| - 1];
      var last := docs[|docs| - 1];
      assert docs == init + [last];
      DecodeLast(w, lightOn, docs);
      DecodedSectionSlot(w, lightOn, init, k);
      var d0 := Decode(w, lightOn, init).value;
      StepSectionSlot(w, lightOn, d0, last, k);
      SlotHoldsAppend(w, init, last, d0.sections[k], k);
    }
  }

  /** Without an `isLightOn` tag both light arrays stay filled-empty. */
  lemma {:induction false} DecodeWithoutLightFlag(w: World, docs: seq<SectionDoc>)
    requires WellFormed(w) && Decode(w, false, docs).Success?
    ensures Decode(w, false, docs).value.blockNibbles == FilledEmptyLight(w)
    ensures Decode(w, false, docs).value.skyNibbles == FilledEmptyLight(w)
    decreases |docs|
  {
    if docs != [] {
      DecodeWithoutLightFlag(w, docs[..|docs| - 1]);
    }
  }

  /** The last entry of `docs` whose light index is `l` is entry `j`. */
  ghost predicate LastLightAt(w: World, docs: seq<SectionDoc>, j: int, l: int) {
    && 0 <= j < |docs|
    && LightSlot(w, docs[j]) == l
    && forall j' :: j < j' < |docs| ==> LightSlot(w, docs[j']) != l
  }

  /** The index of the last entry whose light index is `l`, or -1 when there is none. */
  function LastLightIndex(w: World, docs: seq<SectionDoc>, l: int): (r: int)
    ensures -1 <= r < |docs|
    ensures r >= 0 ==> LastLightAt(w, docs, r, l)
    ensures r < 0 <==> forall j :: 0 <= j < |docs| ==> LightSlot(w, docs[j]) != l
    decreases |docs|
  {
    if docs == [] then -1
    else if LightSlot(w, docs[|docs| - 1]) == l then |docs| - 1
    else
      var init := docs[..|docs| - 1];
      assert forall j :: 0 <= j < |init| ==> init[j] == docs[j];
      LastLightIndex(w, init, l)
  }

  /**
   * With an `isLightOn` tag, block-light slot `l` is overwritten exactly when
   * some entry has light index `l`, by the last such entry; sky light the
   * same, but only in a world with sky light. Untouched slots stay filled-empty.
   */
  lemma {:induction false} DecodedLightSlot(w: World, docs: seq<SectionDoc>, l: int)
    requires WellFormed(w) && Decode(w, true, docs).Success?
    requires 0 <= l < LightSectionCount(w)
    ensures var d := Decode(w, true, docs).value; var i := LastLightIndex(w, docs, l);
      && d.blockNibbles[l] == (if i < 0 then FilledEmpty else BlockNibbleOf(docs[i]))
      && d.skyNibbles[l] == (if i < 0 || !w.hasSkylight then FilledEmpty else SkyNibbleOf(docs[i]))
    decreases |docs|
  {
    if docs != [] {
      var init := docs[..|docs| - 1];
      var last := docs[|docs| - 1];
      DecodeLast(w, true, docs);
      DecodedLightSlot(w, init, l);
      StepLightSlot(w, true, Decode(w, true, init).value, last, l);
    }
  }

  // ----------------------------------------------------------- serialising

  /** What the light engine persists of one nibble array. */
  datatype SaveState = SaveState(data: Option<seq<int>>, state: int)

  /** `it != null && it.y shr 4 == i`. */
  predicate MatchesY(o: Option<ChunkSection>, i: int)
    ensures MatchesY(o, i) <==> o.Some? && 16 * i <= o.value.y < 16 * i + 16
  {
    o.Some? && o.value.y / 16 == i
  }

  /** The first slot whose section matches `i` (`filter { ... }.firstOrNull()`). */
  function FirstMatch(secs: seq<Option<ChunkSection>>, i: int): (r: Option<ChunkSection>)
    ensures r.None? <==> forall j :: 0 <= j < |secs| ==> !MatchesY(secs[j], i)
    ensures r.Some? ==>
      exists j :: (0 <= j < |secs| && secs[j] == r && MatchesY(secs[j], i)
        && forall j' :: 0 <= j' < j ==> !MatchesY(secs[j'], i))
    decreases |secs|
  {
    if secs == [] then None
    else if MatchesY(secs[0], i) then secs[0]
    else
      var r := FirstMatch(secs[1..], i);
      assert forall j :: 1 <= j < |secs| ==> secs[j] == secs[1..][j - 1];
      if r.Some? then
        ghost var j :| (0 <= j < |secs[1..]| && secs[1..][j] == r && MatchesY(secs[1..][j], i)
          && forall j' :: 0 <= j' < j ==> !MatchesY(secs[1..][j'], i));
        assert secs[j + 1] == r;
        r
      else r
  }

  /**
   * The entry for light section `i`, emitted iff there is a matching section,
   * a block-light save state or a sky-light save state.
   */
  function SectionEntry(sec: Option<ChunkSection>, bs: Option<SaveState>, ss: Option<SaveState>, i: int): (r: Option<SectionDoc>)
    ensures r.Some? <==> sec.Some? || bs.Some? || ss.Some?
    ensures r.Some? ==> r.value.y == LowByte(i)
    ensures r.Some? ==> (r.value.palette.Some? <==> sec.Some?) && r.value.hasBlockStates == sec.Some?
    ensures r.Some? && sec.Some? ==> r.value.palette == Some(sec.value.cells)
    ensures r.Some? ==> (r.value.blockLightState.Some? <==> bs.Some?) && (r.value.skyLightState.Some? <==> ss.Some?)
    ensures r.Some? && bs.Some? ==> r.value.blockLight == bs.value.data && r.value.blockLightState == Some(bs.value.state)
    ensures r.Some? && ss.Some? ==> r.value.skyLight == ss.value.data && r.value.skyLightState == Some(ss.value.state)
    ensures r.Some? && bs.Some? ==> BlockNibbleOf(r.value) == Loaded(bs.value.data, bs.value.state)
    ensures r.Some? && ss.Some? ==> SkyNibbleOf(r.value) == Loaded(ss.value.data, ss.value.state)
  {
    if sec.None? && bs.None? && ss.None? then None
    else
      Some(SectionDoc(
        LowByte(i),
        if sec.Some? then Some(sec.value.cells) else None,
        sec.Some?,
        if bs.Some? then bs.value.data else None,
        if bs.Some? then Some(bs.value.state) else None,
        if ss.Some? then ss.value.data else None,
        if ss.Some? then Some(ss.value.state) else None))
  }

  /** The entry for the `k`-th light section, `base + k`. */
  function EntryAt(
    secs: seq<Option<ChunkSection>>, blockNibbles: seq<Nibble>, skyNibbles: seq<Nibble>,
    saveStateOf: Nibble -> Option<SaveState>, base: int, k: nat): (r: Option<SectionDoc>)
    requires k < |blockNibbles| && k < |skyNibbles|
    ensures r.Some? <==>
      FirstMatch(secs, base + k).Some? || saveStateOf(blockNibbles[k]).Some? || saveStateOf(skyNibbles[k]).Some?
    ensures r.Some? ==> r.value.y == LowByte(base + k)
    ensures r.Some? && FirstMatch(secs, base + k).Some? ==>
      r.value.palette == Some(FirstMatch(secs, base + k).value.cells)
  {
    SectionEntry(FirstMatch(secs, base + k), saveStateOf(blockNibbles[k]), saveStateOf(skyNibbles[k]), base + k)
  }

  /** The `Sections` list written for light sections `base`, ..., `base + n - 1`, in order. */
  function SectionEntries(
    secs: seq<Option<ChunkSection>>, blockNibbles: seq<Nibble>, skyNibbles: seq<Nibble>,
    saveStateOf: Nibble -> Option<SaveState>, base: int, n: nat): (r: seq<SectionDoc>)
    requires n <= |blockNibbles| && n <= |skyNibbles|
    ensures |r| <= n
    ensures forall e :: e in r ==> (e.palette.Some? <==> e.hasBlockStates)
    decreases n
  {
    if n == 0 then []
    else
      var e := EntryAt(secs, blockNibbles, skyNibbles, saveStateOf, base, n - 1);
      SectionEntries(secs, blockNibbles, skyNibbles, saveStateOf, base, n - 1)
        + (if e.Some? then [e.value] else [])
  }

  /** Within the byte range, every written entry carries one of the listed section coordinates. */
  lemma {:induction false} SectionEntriesY(
    secs: seq<Option<ChunkSection>>, blockNibbles: seq<Nibble>, skyNibbles: seq<Nibble>,
    saveStateOf: Nibble -> Option<SaveState>, base: int, n: nat)
    requires n <= |blockNibbles| && n <= |skyNibbles|
    requires -128 <= base && base + n <= 128
    ensures forall e :: e in SectionEntries(secs, blockNibbles, skyNibbles, saveStateOf, base, n) ==>
      base <= e.y < base + n
  {
    if n > 0 {
      SectionEntriesY(secs, blockNibbles, skyNibbles, saveStateOf, base, n - 1);
    }
  }

  /** An entry is in the list for `n` sections iff it is in the list for `n - 1` or is the entry of section `n - 1`. */
  lemma EntriesMembership(
    secs: seq<Option<ChunkSection>>, blockNibbles: seq<Nibble>, skyNibbles: seq<Nibble>,
    saveStateOf: Nibble -> Option<SaveState>, base: int, n: nat, e: SectionDoc)
    requires 0 < n <= |blockNibbles| && n <= |skyNibbles|
    ensures var last := EntryAt(secs, blockNibbles, skyNibbles, saveStateOf, base, n - 1);
      e in SectionEntries(secs, blockNibbles, skyNibbles, saveStateOf, base, n) <==>
        e in SectionEntries(secs, blockNibbles, skyNibbles, saveStateOf, base, n - 1) || last == Some(e)
  {
  }

  /**
   * An entry for light section `base + k` is written iff a section matches it
   * or either light array has a save state there, and that entry is exactly
   * the one `SectionEntry` builds.
   */
  lemma {:induction false} SectionEntryWrittenIff(
    secs: seq<Option<ChunkSection>>, blockNibbles: seq<Nibble>, skyNibbles: seq<Nibble>,
    saveStateOf: Nibble -> Option<SaveState>, base: int, n: nat, k: nat)
    requires n <= |blockNibbles| && n <= |skyNibbles|
    requires -128 <= base && base + n <= 128
    requires k < n
    ensures var entries := SectionEntries(secs, blockNibbles, skyNibbles, saveStateOf, base, n);
      (exists e :: e in entries && e.y == base + k) <==>
        FirstMatch(secs, base + k).Some? || saveStateOf(blockNibbles[k]).Some? || saveStateOf(skyNibbles[k]).Some?
    ensures var entries := SectionEntries(secs, blockNibbles, skyNibbles, saveStateOf, base, n);
      forall e :: e in entries && e.y == base + k ==> Some(e) == EntryAt(secs, blockNibbles, skyNibbles, saveStateOf, base, k)
  {
    var entries := SectionEntries(secs, blockNibbles, skyNibbles, saveStateOf, base, n);
    var prefix := SectionEntries(secs, blockNibbles, skyNibbles, saveStateOf, base, n - 1);
    var last := EntryAt(secs, blockNibbles, skyNibbles, saveStateOf, base, n - 1);
    forall e | e in entries
      ensures e in prefix || last == Some(e)
    {
      EntriesMembership(secs, blockNibbles, skyNibbles, saveStateOf, base, n, e);
    }
    SectionEntriesY(secs, blockNibbles, skyNibbles, saveStateOf, base, n - 1);
    if k == n - 1 {
      if last.Some? {
        EntriesMembership(secs, blockNibbles, skyNibbles, saveStateOf, base, n, last.value);
        assert last.value in entries && last.value.y == base + k;
      }
    } else {
      SectionEntryWrittenIff(secs, blockNibbles, skyNibbles, saveStateOf, base, n - 1, k);
      forall e | e in prefix
        ensures e in entries
      {
        EntriesMembership(secs, blockNibbles, skyNibbles, saveStateOf, base, n, e);
      }
    }
  }

  /**
   * `serialize` matches a section by shifting its Y right by four although a
   * section's Y is already a section coordinate. In a world of two sections
   * (0 and 1) with no light save states, a non-empty section at Y 1 is
   * written as the single entry with Y 0.
   */
  lemma SectionSavedUnderShiftedY(s: ChunkSection, saveStateOf: Nibble -> Option<SaveState>)
    requires s.y == 1
    requires saveStateOf(FilledEmpty) == None
    ensures var nibbles := [FilledEmpty, FilledEmpty, FilledEmpty, FilledEmpty];
      SectionEntries([None, Some(s)], nibbles, nibbles, saveStateOf, -1, 3) ==
        [SectionDoc(0, Some(s.cells), true, None, None, None, None)]
  {
    var secs := [None, Some(s)];
    var nibbles := [FilledEmpty, FilledEmpty, FilledEmpty, FilledEmpty];
    assert FirstMatch(secs, -1) == None;
    assert FirstMatch(secs, 0) == Some(s);
    assert FirstMatch(secs, 1) == None;
    assert EntryAt(secs, nibbles, nibbles, saveStateOf, -1, 0) == None;
    assert EntryAt(secs, nibbles, nibbles, saveStateOf, -1, 1) == Some(SectionDoc(0, Some(s.cells), true, None, None, None, None));
    assert EntryAt(secs, nibbles, nibbles, saveStateOf, -1, 2) == None;
    assert SectionEntries(secs, nibbles, nibbles, saveStateOf, -1, 1) == [];
    assert SectionEntries(secs, nibbles, nibbles, saveStateOf, -1, 2) ==
      [SectionDoc(0, Some(s.cells), true, None, None, None, None)];
  }

  /**
   * Reading that entry back, in a world whose lowest section is 0, puts the
   * section's blocks in slot 0, not in the slot of Y 1 they were saved from.
   */
  lemma ShiftedEntryLoadsOneSectionLow(w: World, cells: map<LocalPos, KryptonBlock>)
    requires WellFormed(w) && w.heights.minimumSection == 0 && w.heights.maximumSection == 2
    requires !ChunkSection(1, cells).IsEmpty()
    ensures var entries := [SectionDoc(0, Some(cells), true, None, None, None, None)];
      Decode(w, false, entries).Success?
      && Decode(w, false, entries).value.sections == [Some(ChunkSection(0, cells)), None]
  {
    var sd := SectionDoc(0, Some(cells), true, None, None, None, None);
    assert SectionOf(sd).cells == ChunkSection(1, cells).cells;
    assert InstallsAt(w, sd, 0) && !InstallsAt(w, sd, 1);
    var d0 := InitialDecoded(w);
    assert [sd][..0] == [];
    assert Decode(w, false, []) == Success(d0);
    var r := Decode(w, false, [sd]);
    assert r == DecodeStep(w, false, d0, sd);
    StepSectionSlot(w, false, d0, sd, 0);
    StepSectionSlot(w, false, d0, sd, 1);
  }

  /** Only the post-features heightmaps are written. */
  function SavedHeightmaps(heightmaps: map<HeightmapType, HeightmapData>): (r: map<HeightmapType, HeightmapData>)
    ensures r.Keys == heightmaps.Keys * POST_FEATURES
    ensures forall t :: t in r ==> r[t] == heightmaps[t]
  {
    map t | t in heightmaps && t in POST_FEATURES :: heightmaps[t]
  }

  /** The post-features heightmaps a document lacks, which a load must prime. */
  function MissingHeightmaps(heightmaps: map<HeightmapType, HeightmapData>): (r: set<HeightmapType>)
    ensures r <= POST_FEATURES
    ensures r !! heightmaps.Keys
    ensures r + (heightmaps.Keys * POST_FEATURES) == POST_FEATURES
  {
    set t | t in POST_FEATURES && t !in heightmaps
  }

  /** The heightmaps of a loaded chunk: the document's data where present, primed otherwise. */
  function LoadedHeightmaps(heightmaps: map<HeightmapType, HeightmapData>): (r: map<HeightmapType, HeightmapData>)
    ensures r.Keys == POST_FEATURES
    ensures forall t :: t in r && t in heightmaps ==> r[t] == heightmaps[t]
    ensures forall t :: t in MissingHeightmaps(heightmaps) ==> r[t] == Primed
  {
    map t | t in POST_FEATURES :: if t in heightmaps then heightmaps[t] else Primed
  }

  /** A loaded chunk's heightmaps are the document's post-features ones plus a primed one per missing kind. */
  lemma LoadedHeightmapsSplit(heightmaps: map<HeightmapType, HeightmapData>)
    ensures map[] + SavedHeightmaps(heightmaps) + (map k | k in MissingHeightmaps(heightmaps) :: Primed)
      == LoadedHeightmaps(heightmaps)
  {
    var l := map[] + SavedHeightmaps(heightmaps) + (map k | k in MissingHeightmaps(heightmaps) :: Primed);
    assert l.Keys == LoadedHeightmaps(heightmaps).Keys;
  }

  /** Saving and reloading a full set of post-features heightmaps gives them back. */
  lemma HeightmapsRoundTrip(heightmaps: map<HeightmapType, HeightmapData>)
    requires heightmaps.Keys == POST_FEATURES
    ensures LoadedHeightmaps(SavedHeightmaps(heightmaps)) == heightmaps
  {
    var r := LoadedHeightmaps(SavedHeightmaps(heightmaps));
    assert r.Keys == heightmaps.Keys;
    assert forall t :: t in r ==> r[t] == heightmaps[t];
  }

  /** The light sections `serialize` walks: from the lowest up to, not including, the highest. */
  function SavedLightSectionCount(w: World): (n: nat)
    requires WellFormed(w)
    ensures n == LightSectionCount(w) - 1
  {
    WorldUtil.MaxLightSection(w.heights) - WorldUtil.MinLightSection(w.heights)
  }

  /** The long tags `serialize` writes. */
  function SavedLongs(lastUpdate: Int64, inhabitedTime: Int64): (r: map<string, Int64>)
    ensures r.Keys == {LAST_UPDATE_KEY, INHABITED_TIME_SAVE_KEY}
    ensures r[LAST_UPDATE_KEY] == lastUpdate && r[INHABITED_TIME_SAVE_KEY] == inhabitedTime
  {
    map[LAST_UPDATE_KEY := lastUpdate, INHABITED_TIME_SAVE_KEY := inhabitedTime]
  }

  /** The whole document `serialize` produces for a chunk in its current state. */
  function SerializedDoc(c: KryptonChunk, saveStateOf: Nibble -> Option<SaveState>): (doc: ChunkDoc)
    reads c, c.sections
    requires c.Valid()
    ensures doc.dataVersion == CHUNK_DATA_VERSION
    ensures doc.level.isLightOn == None
    ensures LongOr0(doc.level, LAST_UPDATE_KEY) == c.lastUpdate
    ensures LongOr0(doc.level, INHABITED_TIME_LOAD_KEY) == 0
    ensures LongOr0(doc.level, INHABITED_TIME_SAVE_KEY) == c.inhabitedTime
    ensures doc.level.heightmaps == SavedHeightmaps(c.heightmaps)
  {
    var longs := SavedLongs(c.lastUpdate, c.inhabitedTime);
    var level := LevelDoc(
      c.biomes,
      c.carvingMasks,
      longs,
      c.structures,
      Some(c.position.x),
      Some(c.position.z),
      None,
      SectionEntries(c.sections[..], c.blockNibbles, c.skyNibbles, saveStateOf,
        WorldUtil.MinLightSection(c.world.heights), SavedLightSectionCount(c.world)),
      SavedHeightmaps(c.heightmaps));
    ChunkDoc(CHUNK_DATA_VERSION, level)
  }

  /**
   * Writes the `Sections` list: one pass over the light sections, appending
   * an entry for each that has a section or a light save state.
   */
  method SerializeSections(c: KryptonChunk, saveStateOf: Nibble -> Option<SaveState>) returns (sectionList: seq<SectionDoc>)
    requires c.Valid()
    ensures sectionList == SerializedDoc(c, saveStateOf).level.sections
  {
    var minSection := WorldUtil.MinLightSection(c.world.heights);
    var maxSection := WorldUtil.MaxLightSection(c.world.heights);
    sectionList := [];
    var i := minSection;
    while i < maxSection
      invariant minSection <= i <= maxSection
      invariant sectionList ==
        SectionEntries(c.sections[..], c.blockNibbles, c.skyNibbles, saveStateOf, minSection, i - minSection)
    {
      var section := FirstMatch(c.sections[..], i);
      var blockNibble := saveStateOf(c.blockNibbles[i - minSection]);
      var skyNibble := saveStateOf(c.skyNibbles[i - minSection]);
      var entry := SectionEntry(section, blockNibble, skyNibble, i);
      if entry.Some? {
        sectionList := sectionList + [entry.value];
      }
      i := i + 1;
    }
  }

  /** Builds the chunk's document. */
  method Serialize(c: KryptonChunk, saveStateOf: Nibble -> Option<SaveState>) returns (doc: ChunkDoc)
    requires c.Valid()
    ensures doc == SerializedDoc(c, saveStateOf)
  {
    var sectionList := SerializeSections(c, saveStateOf);
    var longs := SavedLongs(c.lastUpdate, c.inhabitedTime);
    var level := LevelDoc(
      c.biomes,
      c.carvingMasks,
      longs,
      c.structures,
      Some(c.position.x),
      Some(c.position.z),
      None,
      sectionList,
      SavedHeightmaps(c.heightmaps));
    doc := ChunkDoc(CHUNK_DATA_VERSION, level);
  }
}
