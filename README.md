# Beatmap listing enrichment, modelled in Dafny

This project models the core of `MoreBeatmapInfo`, the browser-extension service that
enriches a rhythm-game beatmap listing. It does three things:

- For each beatmap-set block it picks the representative (hardest) difficulty, stamps
  the block's `mapsetId` / `beatmapId` attributes, and renders a summary. It adds a
  deep-info button for standard-mode (`osu`) variants and a PP affordance.
- It toggles a deep-info tooltip.
- It switches the difficulty a block displays when the user picks another one in the
  difficulty popup. That flow has a no-op guard and a lookup in the provider's local
  cache. A hit re-renders the block. A miss sends a reload signal and arms one delayed
  retry lookup.

Modules:

- `Wrappers`: `Option`, standing for `null` / `undefined` / `NaN`.
- `Beatmap`: the provider's records (variant, set data, cached entry, computed difficulty)
  and the summary of a variant, given as the tuple of the fields it shows.
- `Representative`: `getLastMapsetDiffInfo` as the same left fold the code runs. It is
  proved to return the first variant with the highest rating.
- `BeatmapIds`: `parseInt(id, 10)` (white space, optional sign, longest digit prefix, `NaN`
  as `None`), `String(n)` for integers, and `convertToNumericBeatmapId`.
- `Blocks`: a block as a record. It also holds the selector lookups (first match in
  document order) and the per-block updates each operation performs, with lemmas about them.
- `Pipeline`: class `MoreBeatmapInfo`. Its fields are the page state (blocks in document
  order, open tooltips) and the provider state (the two caches) it acts on. Three counters
  stand for external effects: reload signals sent, armed 1300 ms retries, and
  computed-data requests. Its methods are the source's methods. Each one states the
  complete new state in terms of the `Blocks` functions.

Network answers are method parameters. `None` means the request rejected, and for set data
`Some(None)` means it resolved without data. The `reloadExtensionRequested` event is the
counter `reloadRequests`. The `setTimeout` callback is the step `RetryTimerFires`, which
consumes one armed retry. The provider's caches change only through the environment step
`ProviderCachesChanged`.

Numbers are Dafny `int` and `real`; nothing depends on floating point.

## Where the model follows the code rather than the feature's description

- A retry that hits after a reload re-renders the info region. It sets the indicator to
  the numeric id. It does not re-run the PP affordance (lines 238-242), unlike a direct hit
  (line 204). So that block keeps showing the PP region of the difficulty it displayed
  before. `RetriedBlock` and `RetryIsSwitchWithoutPP` state this.
- When a cache entry names a mapset that no block carries, the code calls
  `querySelector` on `null` and throws before rendering anything (lines 202-203 and
  240-241). The model returns `BlockNotFound` / `RetryBlockNotFound` with the page unchanged.
- A non-numeric id is not rejected. It becomes `None` (NaN) and falls through to a cache
  miss, a reload signal and one retry.

## Model

| member | source | states |
|---|---|---|
| `Representative.GetLastMapsetDiffInfo` | src/js/Services/MoreBeatmapInfo.js:174-182 | None exactly when the set data is absent, has no `beatmaps`, or has none; otherwise a variant at an index that is the first maximum of the difficulty ratings |
| `Representative.ReduceHardest` | src/js/Services/MoreBeatmapInfo.js:179-181 | the fold returns its seed or an element of the list, rated at least as high as the seed and as every element |
| `Representative.ReducePicksFirstMax` | src/js/Services/MoreBeatmapInfo.js:179-181 | folding from the first maximum of a prefix ends on the first maximum of the whole list (strict `>` keeps earlier ties) |
| `Representative.FirstMaxIsUnique` | src/js/Services/MoreBeatmapInfo.js:179-181 | the first-maximum index is unique, so the representative is determined |
| `Representative.TieKeepsFirst` | src/js/Services/MoreBeatmapInfo.js:180 | of two equally rated variants the first is chosen |
| `Representative.HarderSecondVariantWins` | src/js/Services/MoreBeatmapInfo.js:179-181 | a strictly harder second variant is chosen (ratings 4.2 then 5.8 give the second) |
| `BeatmapIds.ConvertToNumericBeatmapId` | src/js/Services/MoreBeatmapInfo.js:215-221 | total (never fails); it is `parseInt` of the id's text, and a numeric id comes back unchanged |
| `BeatmapIds.ParseIntReadsLeadingDigits` | src/js/Services/MoreBeatmapInfo.js:216 | white space, an optional sign, digits, then a non-digit tail parse to the signed value of the digits |
| `BeatmapIds.ParseIntNaNExactly` | src/js/Services/MoreBeatmapInfo.js:216-219 | the result is NaN exactly when no digit follows the white space and optional sign |
| `BeatmapIds.ParseIntOfIntToDecimal` | src/js/Services/MoreBeatmapInfo.js:216 | parsing the decimal text of any integer gives that integer back |
| `Beatmap.SummaryReflectsShownFields` | src/js/Services/MoreBeatmapInfo.js:163-172 | two variants render the same summary exactly when rating, bpm, combo, ar, cs, od and hp agree |
| `Blocks.MapsetBlock` | src/js/Services/MoreBeatmapInfo.js:202 | the block located for a mapset id is the first carrying that `mapsetId`; None exactly when no block does |
| `Blocks.BlockShowing` | src/js/Services/MoreBeatmapInfo.js:224 | a block is found exactly when some block's indicator shows the id, and the one found does |
| `Blocks.RenderedInfo` | src/js/Services/MoreBeatmapInfo.js:250-257 | the info region is re-rendered with the variant's summary only if it exists; otherwise the block is unchanged; nothing else changes |
| `Blocks.WithPPAffordance` | src/js/Services/MoreBeatmapInfo.js:118-133 | a PP region is added only when there is none; it shows the cached PP of the id, or the compute-PP button for that id; nothing else changes |
| `Blocks.PPAffordanceKeepsOneRegion` | src/js/Services/MoreBeatmapInfo.js:119-123 | any number of runs leaves exactly one PP region |
| `Blocks.PPAffordanceLastRunWins` | src/js/Services/MoreBeatmapInfo.js:125-132 | after repeated runs the PP region shows what the last run chose |
| `Blocks.WithPlaceholder` | src/js/Services/MoreBeatmapInfo.js:79-86 | only `mapsetId` is stamped and the info region holds the failure placeholder |
| `Blocks.Enriched` | src/js/Services/MoreBeatmapInfo.js:63-77 | no data gives the placeholder; data stamps both attributes (`beatmapId` is the variant's id), renders its summary, adds the deep-info button only for `osu`, runs the PP affordance for its id; the indicator is untouched |
| `Blocks.EnrichIdempotent` | src/js/Services/MoreBeatmapInfo.js:63-77 | enriching twice with the same data equals enriching once (no second PP region or placeholder) |
| `Blocks.EnrichOverwrites` | src/js/Services/MoreBeatmapInfo.js:63-77 | a later enrichment with a variant overwrites the earlier one, except that a mounted deep-info button stays |
| `Blocks.SwitchedBlock` | src/js/Services/MoreBeatmapInfo.js:202-205 | on a hit the indicator shows the id as given, the info region is re-rendered, attributes and deep-info button are kept |
| `Blocks.RetriedBlock` | src/js/Services/MoreBeatmapInfo.js:240-242 | on a retry hit the indicator and info region change while the PP region and its content stay as they were |
| `Blocks.RetryIsSwitchWithoutPP` | src/js/Services/MoreBeatmapInfo.js:202-205 | a direct hit equals the retry render followed by the PP affordance |
| `Pipeline.LookupDiff` | src/js/Services/MoreBeatmapInfo.js:197 | a cache hit exactly when the id is a number present in the cache; NaN never hits |
| `Pipeline.MoreBeatmapInfo.SetInfoToBeatmapBlock` | src/js/Services/MoreBeatmapInfo.js:51-61 | extraction or fetch errors change nothing; otherwise the block is enriched with the representative, whose id is that of the first hardest variant, or gets the placeholder |
| `Pipeline.MoreBeatmapInfo.UpdateBeatmapBlock` | src/js/Services/MoreBeatmapInfo.js:63-77 | only block `i` changes, to its enrichment; every block keeps at most one PP region |
| `Pipeline.MoreBeatmapInfo.HandleMissingBeatmapData` | src/js/Services/MoreBeatmapInfo.js:79-86 | only block `i` changes: `mapsetId` stamped, placeholder mounted |
| `Pipeline.MoreBeatmapInfo.HandleDeepInfoBtnClick` | src/js/Services/MoreBeatmapInfo.js:98-116 | an open tooltip for the block's id is closed with no request; otherwise exactly one request; its answer shows the PP and opens the tooltip; a rejection changes nothing |
| `Pipeline.MoreBeatmapInfo.SetBeatmapPPReceivingToBlock` | src/js/Services/MoreBeatmapInfo.js:118-133 | only block `i` changes, to the PP affordance for the id, leaving exactly one PP region |
| `Pipeline.MoreBeatmapInfo.HandleGetPPBtnClick` | src/js/Services/MoreBeatmapInfo.js:135-138 | one request; its answer replaces the button with the PP value |
| `Pipeline.MoreBeatmapInfo.IsBeatmapInfoAlreadyDisplayed` | src/js/Services/MoreBeatmapInfo.js:223-230 | true exactly when some block's indicator shows the id's text |
| `Pipeline.MoreBeatmapInfo.UpdateBeatmapInfoDOM` | src/js/Services/MoreBeatmapInfo.js:250-257 | only block `i` changes, and only its info region, and only if it has one |
| `Pipeline.MoreBeatmapInfo.UpdateBeatmapIdBtn` | src/js/Services/MoreBeatmapInfo.js:205 | only block `i`'s indicator changes, to the given id |
| `Pipeline.MoreBeatmapInfo.HandleChangeInfoDiffClick` | src/js/Services/MoreBeatmapInfo.js:193-206 | guard hit: nothing changes; miss: exactly one reload signal and one armed retry for the numeric id, blocks unchanged; hit: only the set's first block changes (info, PP for the id as given, indicator), no reload; no block for the set: nothing changes; after a switch the guard holds for that id |
| `Pipeline.MoreBeatmapInfo.HandleMissingBeatmapInfo` | src/js/Services/MoreBeatmapInfo.js:232-236 | exactly one reload signal and exactly one retry armed |
| `Pipeline.MoreBeatmapInfo.RetryTimerFires` | src/js/Services/MoreBeatmapInfo.js:236-247 | the oldest armed retry is consumed; a renewed miss changes nothing; a hit changes only the set's first block (info, indicator set to the numeric id, PP untouched) and sends no reload |

## Left out

- `initialize`, `processPopupGroupChanges`, `setLastDiffInfoToBeatmapsRows` and `flattenBeatmapRows` are left out: they only wire DOM observers and traverse rows. Every block is reachable by its index.
- The click listener of the placeholder's retry button (lines 88-95) is left out as event plumbing. The placeholder is a marker without retry state.
- `createBeatmapParamsAsString` and `createBeatmapDifficultyParamsString` are not modelled as text. The info region holds the tuple of shown fields, and a tooltip holds the difficulty record. Number formatting with `toFixed` and the HTML markup are not modelled.
- Logging, `console.log`, `CustomEvent` and `window` are external sinks. The reload dispatch is the counter `reloadRequests`.
- `async`/`await` interleaving is not modelled. Each asynchronous method is one atomic step that takes the awaited answer as a parameter. A rejection inside `handleGetPPBtnClick` is unhandled and changes nothing.
- The 1300 ms delay is not modelled as time. It is one armed retry per miss, fired by `RetryTimerFires`.
- The provider's internals are not modelled (`OsuApi` fetches, caching, reload handling). Its caches are fields that only `ProviderCachesChanged` replaces.
- `DomHelper` is not part of this model. Its lookups and mounts are modelled by these assumptions:
  - `getMapsetBlockById` finds the first block whose `mapsetId` attribute is the id.
  - `getMapsetBlockByCurrentDiffDisplayed` finds the first block whose indicator text equals `String(id)`.
  - `updateBeatmapIdBtn` sets that indicator.
  - Mounting info replaces the info region's content.
  - `mountPPForBeatmapBlock` replaces the PP region's content.
  - The deep-info button is a flag, so whether repeated mounting duplicates it is not modelled.
- The computed-data cache is keyed by the id's text (`String(id)`), as a JavaScript object key would be.
- Blocks are never removed from the page. The TypeError raised when a block lacks its `.beatmapset-panel__info` element is not modelled: listing rows always have one.
- `ConvertToNumericBeatmapId` does not model double precision. Ids with more than 15 significant digits and numbers printed in exponent form (at or above 10^21) parse exactly here.
