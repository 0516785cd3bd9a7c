/**
 * The representative ("last") difficulty of a beatmap set: a left fold over the
 * variants, seeded with the first one, that keeps the running maximum and replaces
 * it only by a strictly higher difficulty rating, so the first maximum wins.
 */
module Representative {
  import opened Wrappers
  import opened Beatmap

  /** The reducer: the current variant replaces the running maximum only when strictly harder. */
  function HarderOf(maxDiff: BeatmapVariant, current: BeatmapVariant): (r: BeatmapVariant)
    ensures r == maxDiff || r == current
    ensures r.difficultyRating >= maxDiff.difficultyRating
    ensures r.difficultyRating >= current.difficultyRating
    ensures r == current ==> (current.difficultyRating > maxDiff.difficultyRating || current == maxDiff)
  {
    if current.difficultyRating > maxDiff.difficultyRating then current else maxDiff
  }

  /** `rest.reduce(HarderOf, acc)`. */
  function ReduceHardest(acc: BeatmapVariant, rest: seq<BeatmapVariant>): (r: BeatmapVariant)
    ensures r == acc || r in rest
    ensures r.difficultyRating >= acc.difficultyRating
    ensures forall k :: 0 <= k < |rest| ==> rest[k].difficultyRating <= r.difficultyRating
    decreases |rest|
  {
    if rest == [] then acc else ReduceHardest(HarderOf(acc, rest[0]), rest[1..])
  }

  /** `m` is the first index holding the highest difficulty rating of `bs`. */
  ghost predicate IsFirstMax(bs: seq<BeatmapVariant>, m: int)
  {
    && 0 <= m < |bs|
    && (forall j :: 0 <= j < |bs| ==> bs[j].difficultyRating <= bs[m].difficultyRating)
    && (forall j :: 0 <= j < m ==> bs[j].difficultyRating < bs[m].difficultyRating)
  }

  /** The set data carries at least one variant (it exists, has `beatmaps`, and that is non-empty). */
  predicate HasVariants(data: Option<MapsetData>)
  {
    data.Some? && data.value.beatmaps.Some? && |data.value.beatmaps.value| > 0
  }

  /**
   * Folding the suffix `bs[i..]` from the first maximum `k` of the prefix `bs[..i]`
   * ends on the first maximum of the whole sequence.
   */
  lemma {:induction false} ReducePicksFirstMax(bs: seq<BeatmapVariant>, i: nat, k: nat)
    requires k < |bs| && k <= i <= |bs|
    requires forall j :: 0 <= j < i ==> bs[j].difficultyRating <= bs[k].difficultyRating
    requires forall j :: 0 <= j < k ==> bs[j].difficultyRating < bs[k].difficultyRating
    ensures exists m :: IsFirstMax(bs, m) && ReduceHardest(bs[k], bs[i..]) == bs[m]
    decreases |bs| - i
  {
    if i == |bs| {
      assert bs[i..] == [];
      assert IsFirstMax(bs, k);
    } else {
      assert bs[i..][1..] == bs[i + 1..];
      if bs[i].difficultyRating > bs[k].difficultyRating {
        ReducePicksFirstMax(bs, i + 1, i);
      } else {
        ReducePicksFirstMax(bs, i + 1, k);
      }
    }
  }

  /**
   * getLastMapsetDiffInfo: None for absent data, absent `beatmaps` or no variants;
   * otherwise the first variant with the highest difficulty rating.
   */
  function GetLastMapsetDiffInfo(data: Option<MapsetData>): (r: Option<BeatmapVariant>)
    ensures r.Some? <==> HasVariants(data)
    ensures r.Some? ==>
      exists m :: IsFirstMax(data.value.beatmaps.value, m) && r.value == data.value.beatmaps.value[m]
  {
    if !HasVariants(data) then None
    else
      var bs := data.value.beatmaps.value;
      ReducePicksFirstMax(bs, 0, 0);
      assert bs[0..] == bs;
      Some(ReduceHardest(bs[0], bs))
  }

  /** The first maximum is unique, so the representative is fully determined. */
  lemma FirstMaxIsUnique(bs: seq<BeatmapVariant>, m1: int, m2: int)
    requires IsFirstMax(bs, m1) && IsFirstMax(bs, m2)
    ensures m1 == m2
  {
    var r1, r2 := bs[m1].difficultyRating, bs[m2].difficultyRating;
    assert r1 <= r2 && r2 <= r1;
    assert !(m1 < m2) && !(m2 < m1);
  }

  /** With ratings tied, the earlier variant is kept. */
  lemma TieKeepsFirst(a: BeatmapVariant, b: BeatmapVariant)
    requires a.difficultyRating == b.difficultyRating
    ensures GetLastMapsetDiffInfo(Some(MapsetData(Some([a, b])))) == Some(a)
  {
  }

  /** A set whose second variant is strictly harder is represented by that variant. */
  lemma {:induction false} HarderSecondVariantWins(a: BeatmapVariant, b: BeatmapVariant)
    requires a.difficultyRating < b.difficultyRating
    ensures GetLastMapsetDiffInfo(Some(MapsetData(Some([a, b])))) == Some(b)
  {
    var bs := [a, b];
    var m :| IsFirstMax(bs, m) && GetLastMapsetDiffInfo(Some(MapsetData(Some(bs)))).value == bs[m];
    assert IsFirstMax(bs, 1);
    FirstMaxIsUnique(bs, 1, m);
  }
}
