/**
 * A beatmap-set block of the listing page, reduced to what the enrichment pipeline
 * reads and writes: its two attributes, its info region, its PP region, its deep-info
 * button and its displayed-difficulty indicator. Blocks sit in document order; the
 * lookups by mapset id and by displayed id return the first match, as a selector query does.
 */
module Blocks {
  import opened Wrappers
  import opened Beatmap
  import opened BeatmapIds

  /** What the info region holds: a rendered summary or the "failed to load" placeholder. */
  datatype InfoContent = Rendered(summary: InfoSummary) | FailurePlaceholder

  /** What the PP region shows: nothing yet, a PP value, or the compute-PP button for a beatmap id. */
  datatype PPContent = NoPP | PPValue(pp: real) | ComputePPButton(beatmapKey: string)

  datatype Block = Block(
    mapsetAttr: Option<int>,       // attribute `mapsetId`
    beatmapAttr: Option<int>,      // attribute `beatmapId`
    info: Option<InfoContent>,     // the info region, when mounted, and its content
    ppRegions: nat,                // how many PP regions the block holds
    pp: PPContent,                 // what the PP region shows
    deepInfoButton: bool,          // the deep-info button is mounted
    shownDiff: Option<string>)     // the displayed-difficulty indicator

  /** A listing row as the page renders it, before any enrichment. */
  const FreshBlock: Block := Block(None, None, None, 0, NoPP, false, None)

  /** The first block that `matches`, if any. */
  function FindFirst(blocks: seq<Block>, matches: Block -> bool): (r: Option<nat>)
    ensures r.Some? ==> r.value < |blocks| && matches(blocks[r.value])
    ensures r.Some? ==> forall j :: 0 <= j < r.value ==> !matches(blocks[j])
    ensures r.None? ==> forall j :: 0 <= j < |blocks| ==> !matches(blocks[j])
    decreases |blocks|
  {
    if blocks == [] then None
    else if matches(blocks[0]) then Some(0)
    else match FindFirst(blocks[1..], matches)
      case None => None
      case Some(k) => Some(k + 1)
  }

  /** The block found by mapset id (`getMapsetBlockById`): the first whose `mapsetId` is `mapsetId`. */
  function MapsetBlock(blocks: seq<Block>, mapsetId: int): (r: Option<nat>)
    ensures r.Some? ==> r.value < |blocks| && blocks[r.value].mapsetAttr == Some(mapsetId)
    ensures r.Some? ==> forall j :: 0 <= j < r.value ==> blocks[j].mapsetAttr != Some(mapsetId)
    ensures r.None? <==> forall j :: 0 <= j < |blocks| ==> blocks[j].mapsetAttr != Some(mapsetId)
  {
    FindFirst(blocks, (b: Block) => b.mapsetAttr == Some(mapsetId))
  }

  /** Some block's indicator already shows the beatmap id `key`. */
  ghost predicate Displaying(blocks: seq<Block>, key: string)
  {
    exists j :: 0 <= j < |blocks| && blocks[j].shownDiff == Some(key)
  }

  /** The block whose indicator shows `key` (`getMapsetBlockByCurrentDiffDisplayed`). */
  function BlockShowing(blocks: seq<Block>, key: string): (r: Option<nat>)
    ensures r.Some? ==> r.value < |blocks| && blocks[r.value].shownDiff == Some(key)
    ensures r.Some? <==> Displaying(blocks, key)
  {
    FindFirst(blocks, (b: Block) => b.shownDiff == Some(key))
  }

  /** updateBeatmapInfoDOM on one block: re-render the info region if there is one, else nothing. */
  function RenderedInfo(b: Block, v: BeatmapVariant): (r: Block)
    ensures b.info.Some? ==> r.info == Some(Rendered(Summary(v)))
    ensures b.info.None? ==> r == b
    ensures r.(info := b.info) == b
  {
    if b.info.Some? then b.(info := Some(Rendered(Summary(v)))) else b
  }

  /**
   * setBeatmapPPReceivingToBlock on one block: add a PP region only if there is none, then
   * show the cached PP of `key`, or the compute-PP button for `key` when it is not cached.
   */
  function WithPPAffordance(b: Block, key: string, calcCache: map<string, CalculatedBeatmap>): (r: Block)
    ensures r.ppRegions == if b.ppRegions == 0 then 1 else b.ppRegions
    ensures key in calcCache ==> r.pp == PPValue(calcCache[key].pp)
    ensures key !in calcCache ==> r.pp == ComputePPButton(key)
    ensures r.(ppRegions := b.ppRegions, pp := b.pp) == b
  {
    var regions := if b.ppRegions == 0 then 1 else b.ppRegions;
    var shown := if key in calcCache then PPValue(calcCache[key].pp) else ComputePPButton(key);
    b.(ppRegions := regions, pp := shown)
  }

  /** handleMissingBeatmapData on one block: stamp `mapsetId` and mount the placeholder. */
  function WithPlaceholder(b: Block, mapsetId: int): (r: Block)
    ensures r.mapsetAttr == Some(mapsetId) && r.info == Some(FailurePlaceholder)
    ensures r.(mapsetAttr := b.mapsetAttr, info := b.info) == b
  {
    b.(mapsetAttr := Some(mapsetId), info := Some(FailurePlaceholder))
  }

  /**
   * updateBeatmapBlock on one block: the placeholder when there is no variant; otherwise
   * both attributes, the variant's summary, the deep-info button for standard-mode
   * variants, and the PP affordance for the variant's id.
   */
  function Enriched(b: Block, mapsetId: int, data: Option<BeatmapVariant>,
                    calcCache: map<string, CalculatedBeatmap>): (r: Block)
    ensures r.mapsetAttr == Some(mapsetId) && r.shownDiff == b.shownDiff
    ensures data.None? ==> r == WithPlaceholder(b, mapsetId)
    ensures data.Some? ==>
      && r.beatmapAttr == Some(data.value.id)
      && r.info == Some(Rendered(Summary(data.value)))
      && r.deepInfoButton == (b.deepInfoButton || data.value.mode == StandardMode)
      && r == WithPPAffordance(r, IntToDecimal(data.value.id), calcCache)
      && r.ppRegions == (if b.ppRegions == 0 then 1 else b.ppRegions)
  {
    match data
    case None => WithPlaceholder(b, mapsetId)
    case Some(v) =>
      var stamped := b.(mapsetAttr := Some(mapsetId), beatmapAttr := Some(v.id),
                        info := Some(Rendered(Summary(v))),
                        deepInfoButton := b.deepInfoButton || v.mode == StandardMode);
      WithPPAffordance(stamped, IntToDecimal(v.id), calcCache)
  }

  /**
   * A switch on a cache hit, on the located block: re-render the info region, re-run
   * the PP affordance for the id as given, and set the indicator to that id.
   */
  function SwitchedBlock(b: Block, v: BeatmapVariant, key: string,
                         calcCache: map<string, CalculatedBeatmap>): (r: Block)
    ensures r.shownDiff == Some(key)
    ensures r.mapsetAttr == b.mapsetAttr && r.beatmapAttr == b.beatmapAttr
    ensures r.deepInfoButton == b.deepInfoButton
    ensures r.info == RenderedInfo(b, v).info
  {
    WithPPAffordance(RenderedInfo(b, v), key, calcCache).(shownDiff := Some(key))
  }

  /** The delayed retry on a hit, on the located block: info region and indicator, no PP. */
  function RetriedBlock(b: Block, v: BeatmapVariant, key: string): (r: Block)
    ensures r.shownDiff == Some(key)
    ensures r.ppRegions == b.ppRegions && r.pp == b.pp
    ensures r.info == RenderedInfo(b, v).info
  {
    RenderedInfo(b, v).(shownDiff := Some(key))
  }

  /** Running the PP affordance any number of times leaves exactly one PP region. */
  lemma {:induction false} PPAffordanceKeepsOneRegion(b: Block, keys: seq<string>,
                                                     calcCache: map<string, CalculatedBeatmap>)
    requires b.ppRegions <= 1
    ensures RepeatPPAffordance(b, keys, calcCache).ppRegions == if keys == [] then b.ppRegions else 1
    decreases |keys|
  {
    if keys != [] {
      PPAffordanceKeepsOneRegion(WithPPAffordance(b, keys[0], calcCache), keys[1..], calcCache);
    }
  }

  /** The PP affordance run once per key, in order. */
  function RepeatPPAffordance(b: Block, keys: seq<string>, calcCache: map<string, CalculatedBeatmap>): Block
    decreases |keys|
  {
    if keys == [] then b else RepeatPPAffordance(WithPPAffordance(b, keys[0], calcCache), keys[1..], calcCache)
  }

  /** The PP affordance shows what the last run put there. */
  lemma {:induction false} PPAffordanceLastRunWins(b: Block, keys: seq<string>,
                                                  calcCache: map<string, CalculatedBeatmap>)
    requires keys != []
    ensures RepeatPPAffordance(b, keys, calcCache).pp ==
      WithPPAffordance(b, keys[|keys| - 1], calcCache).pp
    decreases |keys|
  {
    if |keys| > 1 {
      PPAffordanceLastRunWins(WithPPAffordance(b, keys[0], calcCache), keys[1..], calcCache);
    }
  }

  /** Enriching a block twice with the same data leaves it as one enrichment does. */
  lemma EnrichIdempotent(b: Block, mapsetId: int, data: Option<BeatmapVariant>,
                         calcCache: map<string, CalculatedBeatmap>)
    ensures Enriched(Enriched(b, mapsetId, data, calcCache), mapsetId, data, calcCache) ==
      Enriched(b, mapsetId, data, calcCache)
  {
  }

  /**
   * A second enrichment with a variant overwrites everything the first one wrote, except
   * that a deep-info button mounted by the first stays mounted.
   */
  lemma EnrichOverwrites(b: Block, mapsetId: int, first: Option<BeatmapVariant>, v: BeatmapVariant,
                         calcCache: map<string, CalculatedBeatmap>)
    ensures var twice := Enriched(Enriched(b, mapsetId, first, calcCache), mapsetId, Some(v), calcCache);
      var once := Enriched(b, mapsetId, Some(v), calcCache);
      twice.(deepInfoButton := once.deepInfoButton) == once
  {
  }

  /** The delayed retry renders what a direct hit renders, except that it keeps the old PP region. */
  lemma RetryIsSwitchWithoutPP(b: Block, v: BeatmapVariant, key: string,
                               calcCache: map<string, CalculatedBeatmap>)
    ensures SwitchedBlock(b, v, key, calcCache) == WithPPAffordance(RetriedBlock(b, v, key), key, calcCache)
  {
  }
}
