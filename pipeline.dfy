/**
 * The enrichment pipeline (class MoreBeatmapInfo) over an abstract page and data
 * provider. The page is the sequence of beatmap-set blocks plus the open deep-info
 * tooltips; the provider is its two synchronous caches. Network answers arrive as
 * method parameters (None for a rejected request), the page-wide reload signal is a
 * counter, and the 1300 ms timer is a queue of armed retries that `RetryTimerFires`
 * consumes one at a time.
 */
module Pipeline {
  import opened Wrappers
  import opened Beatmap
  import opened BeatmapIds
  import opened Representative
  import opened Blocks

  /** An open deep-info tooltip: the block it is anchored to and the breakdown it shows. */
  datatype Tooltip = Tooltip(anchor: nat, breakdown: DifficultyAttributes)

  datatype SwitchOutcome =
    | AlreadyDisplayed                   // the guard fired: nothing happened
    | Switched(block: nat)               // cache hit, block re-rendered
    | BlockNotFound                      // cache hit, but no block has that mapset id: the render throws
    | ReloadRequested(numericId: Option<int>) // cache miss: reload signalled, one retry armed

  datatype RetryOutcome =
    | RetrySwitched(block: nat)          // the retry hit and re-rendered the block
    | RetryBlockNotFound                 // the retry hit, but no block has that mapset id
    | GaveUp                             // still a miss: logged, nothing changes

  datatype DeepInfoOutcome = TooltipClosed | TooltipShown | FetchFailed

  /** The cached entry for a numeric id; NaN (None) never hits. */
  function LookupDiff(diffCache: map<int, CachedDiffEntry>, id: Option<int>): (r: Option<CachedDiffEntry>)
    ensures r.Some? <==> id.Some? && id.value in diffCache
    ensures r.Some? ==> r.value == diffCache[id.value]
  {
    if id.Some? && id.value in diffCache then Some(diffCache[id.value]) else None
  }

  class MoreBeatmapInfo {
    var blocks: seq<Block>                          // the listing's blocks, in document order
    var tooltips: map<string, Tooltip>              // open deep-info tooltips, by beatmap id
    var diffCache: map<int, CachedDiffEntry>        // provider cache: beatmap id -> set and variant
    var calcCache: map<string, CalculatedBeatmap>   // provider cache: beatmap id -> computed data
    var reloadRequests: nat                         // `reloadExtensionRequested` signals sent
    var pendingRetries: seq<Option<int>>            // armed 1300 ms retries, oldest first
    var calcFetches: nat                            // computed-data requests sent to the provider

    /** Every block holds at most one PP region. */
    ghost predicate Valid()
      reads this
    {
      forall j :: 0 <= j < |blocks| ==> blocks[j].ppRegions <= 1
    }

    constructor (rows: nat, diffCache0: map<int, CachedDiffEntry>, calcCache0: map<string, CalculatedBeatmap>)
      ensures Valid()
      ensures blocks == seq(rows, _ => FreshBlock) && tooltips == map[]
      ensures diffCache == diffCache0 && calcCache == calcCache0
      ensures reloadRequests == 0 && pendingRetries == [] && calcFetches == 0
    {
      blocks := seq(rows, _ => FreshBlock);
      tooltips := map[];
      diffCache, calcCache := diffCache0, calcCache0;
      reloadRequests, pendingRetries, calcFetches := 0, [], 0;
    }

    /** The provider refilled its caches (after a reload, or after fetches it cached). */
    method ProviderCachesChanged(diffCache1: map<int, CachedDiffEntry>, calcCache1: map<string, CalculatedBeatmap>)
      modifies this`diffCache, this`calcCache
      ensures diffCache == diffCache1 && calcCache == calcCache1
    {
      diffCache, calcCache := diffCache1, calcCache1;
    }

    /**
     * setInfoToBeatmapBlock: `extracted` is the mapset id read from the block (None when that
     * throws), `fetched` the provider's answer (None when the request rejects; Some(None) when
     * it resolves without data). Errors are caught here, so they change nothing.
     */
    method SetInfoToBeatmapBlock(i: nat, extracted: Option<int>, fetched: Option<Option<MapsetData>>)
      requires Valid() && i < |blocks|
      modifies this`blocks
      ensures Valid()
      ensures extracted.None? || fetched.None? ==> blocks == old(blocks)
      ensures extracted.Some? && fetched.Some? ==>
        blocks == old(blocks)[i := Enriched(old(blocks)[i], extracted.value,
                                            GetLastMapsetDiffInfo(fetched.value), calcCache)]
      ensures extracted.Some? && fetched.Some? && HasVariants(fetched.value) ==>
        var bs := fetched.value.value.beatmaps.value;
        exists m :: IsFirstMax(bs, m) && blocks[i].beatmapAttr == Some(bs[m].id)
      ensures extracted.Some? && fetched.Some? && !HasVariants(fetched.value) ==>
        blocks[i].info == Some(FailurePlaceholder)
    {
      if extracted.None? || fetched.None? {
        return;
      }
      var lastDiff := GetLastMapsetDiffInfo(fetched.value);
      UpdateBeatmapBlock(i, extracted.value, lastDiff);
    }

    /** updateBeatmapBlock: the placeholder without data, otherwise the full enrichment. */
    method UpdateBeatmapBlock(i: nat, mapsetId: int, beatmapData: Option<BeatmapVariant>)
      requires Valid() && i < |blocks|
      modifies this`blocks
      ensures Valid()
      ensures blocks == old(blocks)[i := Enriched(old(blocks)[i], mapsetId, beatmapData, calcCache)]
    {
      if beatmapData.None? {
        HandleMissingBeatmapData(i, mapsetId);
        return;
      }
      var v := beatmapData.value;
      var b := blocks[i];
      b := b.(mapsetAttr := Some(mapsetId), beatmapAttr := Some(v.id));
      b := b.(info := Some(Rendered(Summary(v))));
      if v.mode == StandardMode {
        b := b.(deepInfoButton := true);
      }
      blocks := blocks[i := b];
      SetBeatmapPPReceivingToBlock(i, IntToDecimal(v.id));
    }

    /** handleMissingBeatmapData: stamp `mapsetId` and mount the failure placeholder. */
    method HandleMissingBeatmapData(i: nat, mapsetId: int)
      requires Valid() && i < |blocks|
      modifies this`blocks
      ensures Valid()
      ensures blocks == old(blocks)[i := WithPlaceholder(old(blocks)[i], mapsetId)]
    {
      blocks := blocks[i := WithPlaceholder(blocks[i], mapsetId)];
    }

    /**
     * handleDeepInfoBtnClick on a block carrying the deep-info button: an open tooltip for
     * its beatmap id is closed without a request; otherwise one request is sent and, when it
     * answers, the PP value is shown and the tooltip opened.
     */
    method HandleDeepInfoBtnClick(i: nat, fetched: Option<CalculatedBeatmap>) returns (outcome: DeepInfoOutcome)
      requires Valid() && i < |blocks|
      requires blocks[i].deepInfoButton && blocks[i].beatmapAttr.Some?
      modifies this`blocks, this`tooltips, this`calcFetches
      ensures Valid()
      ensures var key := IntToDecimal(old(blocks[i].beatmapAttr.value));
        if key in old(tooltips) then
          && outcome == TooltipClosed
          && tooltips == old(tooltips) - {key}
          && blocks == old(blocks) && calcFetches == old(calcFetches)
        else
          && calcFetches == old(calcFetches) + 1
          && (fetched.None? ==> outcome == FetchFailed && tooltips == old(tooltips) && blocks == old(blocks))
          && (fetched.Some? ==>
                && outcome == TooltipShown
                && tooltips == old(tooltips)[key := Tooltip(i, fetched.value.difficulty)]
                && blocks == old(blocks)[i := old(blocks[i]).(pp := PPValue(fetched.value.pp))])
    {
      var key := IntToDecimal(blocks[i].beatmapAttr.value);
      if key in tooltips {
        tooltips := tooltips - {key};
        return TooltipClosed;
      }
      calcFetches := calcFetches + 1;
      if fetched.None? {
        return FetchFailed;
      }
      blocks := blocks[i := blocks[i].(pp := PPValue(fetched.value.pp))];
      tooltips := tooltips[key := Tooltip(i, fetched.value.difficulty)];
      return TooltipShown;
    }

    /**
     * setBeatmapPPReceivingToBlock: make sure there is one PP region, then show the cached
     * PP of `key` or the compute-PP button for it.
     */
    method SetBeatmapPPReceivingToBlock(i: nat, key: string)
      requires Valid() && i < |blocks|
      modifies this`blocks
      ensures Valid()
      ensures blocks == old(blocks)[i := WithPPAffordance(old(blocks)[i], key, calcCache)]
      ensures blocks[i].ppRegions == 1
    {
      var b := blocks[i];
      if b.ppRegions == 0 {
        b := b.(ppRegions := 1);
      }
      if key in calcCache {
        b := b.(pp := PPValue(calcCache[key].pp));
      } else {
        b := b.(pp := ComputePPButton(key));
      }
      blocks := blocks[i := b];
    }

    /** handleGetPPBtnClick: one request for the button's id; its answer replaces the button. */
    method HandleGetPPBtnClick(i: nat, fetched: Option<CalculatedBeatmap>)
      requires Valid() && i < |blocks| && blocks[i].pp.ComputePPButton?
      modifies this`blocks, this`calcFetches
      ensures Valid()
      ensures calcFetches == old(calcFetches) + 1
      ensures fetched.None? ==> blocks == old(blocks)
      ensures fetched.Some? ==> blocks == old(blocks)[i := old(blocks[i]).(pp := PPValue(fetched.value.pp))]
    {
      calcFetches := calcFetches + 1;
      if fetched.Some? {
        blocks := blocks[i := blocks[i].(pp := PPValue(fetched.value.pp))];
      }
    }

    /** isBeatmapInfoAlreadyDisplayed: some block's indicator already shows this id. */
    method IsBeatmapInfoAlreadyDisplayed(beatmapId: RawBeatmapId) returns (shown: bool)
      ensures shown <==> Displaying(blocks, IdText(beatmapId))
    {
      var found := BlockShowing(blocks, IdText(beatmapId));
      shown := found.Some?;
    }

    /** updateBeatmapInfoDOM: re-render the block's info region when it has one. */
    method UpdateBeatmapInfoDOM(v: BeatmapVariant, i: nat)
      requires Valid() && i < |blocks|
      modifies this`blocks
      ensures Valid()
      ensures blocks == old(blocks)[i := RenderedInfo(old(blocks)[i], v)]
    {
      if blocks[i].info.Some? {
        blocks := blocks[i := blocks[i].(info := Some(Rendered(Summary(v))))];
      }
    }

    /** updateBeatmapIdBtn: the block's displayed-difficulty indicator now shows `key`. */
    method UpdateBeatmapIdBtn(i: nat, key: string)
      requires Valid() && i < |blocks|
      modifies this`blocks
      ensures Valid()
      ensures blocks == old(blocks)[i := old(blocks[i]).(shownDiff := Some(key))]
    {
      blocks := blocks[i := blocks[i].(shownDiff := Some(key))];
    }

    /**
     * handleChangeInfoDiffClick: no-op when some block already shows the id; otherwise parse
     * it and look it up; a hit re-renders the set's block (info, PP for the id as given,
     * indicator), a miss signals a reload and arms exactly one delayed retry.
     */
    method HandleChangeInfoDiffClick(beatmapId: RawBeatmapId) returns (outcome: SwitchOutcome)
      requires Valid()
      modifies this`blocks, this`reloadRequests, this`pendingRetries
      ensures Valid()
      ensures var key := IdText(beatmapId);
        var numeric := ConvertToNumericBeatmapId(beatmapId);
        var hit := LookupDiff(diffCache, numeric);
        if Displaying(old(blocks), key) then
          && outcome == AlreadyDisplayed
          && blocks == old(blocks) && reloadRequests == old(reloadRequests)
          && pendingRetries == old(pendingRetries)
        else if hit.None? then
          && outcome == ReloadRequested(numeric)
          && blocks == old(blocks) && reloadRequests == old(reloadRequests) + 1
          && pendingRetries == old(pendingRetries) + [numeric]
        else
          && reloadRequests == old(reloadRequests) && pendingRetries == old(pendingRetries)
          && match MapsetBlock(old(blocks), hit.value.mapsetId)
             case None => outcome == BlockNotFound && blocks == old(blocks)
             case Some(k) =>
               && outcome == Switched(k)
               && blocks == old(blocks)[k := SwitchedBlock(old(blocks)[k], hit.value.variant, key, calcCache)]
      ensures outcome.Switched? ==> Displaying(blocks, IdText(beatmapId))
    {
      var shown := IsBeatmapInfoAlreadyDisplayed(beatmapId);
      if shown {
        return AlreadyDisplayed;
      }
      var numericBeatmapId := ConvertToNumericBeatmapId(beatmapId);
      var beatmapInfo := LookupDiff(diffCache, numericBeatmapId);
      if beatmapInfo.None? {
        HandleMissingBeatmapInfo(numericBeatmapId);
        return ReloadRequested(numericBeatmapId);
      }
      var found := MapsetBlock(blocks, beatmapInfo.value.mapsetId);
      if found.None? {
        return BlockNotFound;
      }
      var k := found.value;
      UpdateBeatmapInfoDOM(beatmapInfo.value.variant, k);
      SetBeatmapPPReceivingToBlock(k, IdText(beatmapId));
      UpdateBeatmapIdBtn(k, IdText(beatmapId));
      assert blocks[k].shownDiff == Some(IdText(beatmapId));
      return Switched(k);
    }

    /** handleMissingBeatmapInfo: one reload signal, then one retry armed for 1300 ms later. */
    method HandleMissingBeatmapInfo(numericBeatmapId: Option<int>)
      modifies this`reloadRequests, this`pendingRetries
      ensures reloadRequests == old(reloadRequests) + 1
      ensures pendingRetries == old(pendingRetries) + [numericBeatmapId]
    {
      reloadRequests := reloadRequests + 1;
      pendingRetries := pendingRetries + [numericBeatmapId];
    }

    /**
     * The oldest armed retry fires: look the id up again, once. A hit re-renders the info
     * region and sets the indicator to the numeric id, without re-running the PP affordance;
     * a miss gives up and changes nothing.
     */
    method RetryTimerFires() returns (outcome: RetryOutcome)
      requires Valid() && pendingRetries != []
      modifies this`blocks, this`pendingRetries
      ensures Valid()
      ensures pendingRetries == old(pendingRetries)[1..]
      ensures var numeric := old(pendingRetries)[0];
        var hit := LookupDiff(diffCache, numeric);
        if hit.None? then
          outcome == GaveUp && blocks == old(blocks)
        else
          match MapsetBlock(old(blocks), hit.value.mapsetId)
          case None => outcome == RetryBlockNotFound && blocks == old(blocks)
          case Some(k) =>
            && outcome == RetrySwitched(k)
            && blocks == old(blocks)[k := RetriedBlock(old(blocks)[k], hit.value.variant, IntToDecimal(numeric.value))]
    {
      var numericBeatmapId := pendingRetries[0];
      pendingRetries := pendingRetries[1..];
      var retryBeatmapInfo := LookupDiff(diffCache, numericBeatmapId);
      if retryBeatmapInfo.None? {
        return GaveUp;
      }
      var found := MapsetBlock(blocks, retryBeatmapInfo.value.mapsetId);
      if found.None? {
        return RetryBlockNotFound;
      }
      var k := found.value;
      UpdateBeatmapInfoDOM(retryBeatmapInfo.value.variant, k);
      UpdateBeatmapIdBtn(k, IntToDecimal(numericBeatmapId.value));
      return RetrySwitched(k);
    }
  }
}
