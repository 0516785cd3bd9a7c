/**
 * The records the enrichment pipeline borrows from the data provider: a beatmap set
 * with its difficulty variants, the cached entries used for difficulty switches,
 * and the computed ("deep") difficulty of one variant. Numbers are reals, not floats.
 */
module Beatmap {
  import opened Wrappers

  /** The game mode whose variants get the deep-info button. */
  const StandardMode: string := "osu"

  /** One playable difficulty of a beatmap set. */
  datatype BeatmapVariant = BeatmapVariant(
    id: int,
    difficultyRating: real,
    bpm: real,
    maxCombo: int,
    ar: real,
    cs: real,
    accuracy: real,
    drain: real,
    mode: string)

  /** A beatmap set as fetched; `beatmaps` is None when the field is missing. */
  datatype MapsetData = MapsetData(beatmaps: Option<seq<BeatmapVariant>>)

  /** What the provider's local cache holds for one beatmap id. */
  datatype CachedDiffEntry = CachedDiffEntry(mapsetId: int, variant: BeatmapVariant)

  datatype DifficultyAttributes = DifficultyAttributes(
    aim: real,
    speed: real,
    nCircles: int,
    nSliders: int,
    speedNoteCount: real,
    flashlight: real)

  /** The computed data of one variant: its PP value and its difficulty breakdown. */
  datatype CalculatedBeatmap = CalculatedBeatmap(pp: real, difficulty: DifficultyAttributes)

  /** The fields the one-line summary of a variant shows, in display order. */
  datatype InfoSummary = InfoSummary(
    stars: real, bpm: real, combo: int, ar: real, cs: real, od: real, hp: real)

  /** The summary rendered into a block's info region (its text layout is not modelled). */
  function Summary(v: BeatmapVariant): InfoSummary
  {
    InfoSummary(v.difficultyRating, v.bpm, v.maxCombo, v.ar, v.cs, v.accuracy, v.drain)
  }

  /** Two variants render the same summary exactly when the seven shown fields agree. */
  lemma SummaryReflectsShownFields(v: BeatmapVariant, w: BeatmapVariant)
    ensures Summary(v) == Summary(w) <==>
      (v.difficultyRating == w.difficultyRating && v.bpm == w.bpm && v.maxCombo == w.maxCombo &&
       v.ar == w.ar && v.cs == w.cs && v.accuracy == w.accuracy && v.drain == w.drain)
  {
  }
}
