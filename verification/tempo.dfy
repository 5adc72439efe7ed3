/** Tempo bucketing: the style name, the catalog search keywords and the curated
    fallback labels chosen for a tempo in BPM. All three are chains of half-open
    threshold tests over the same thresholds; `Bucket` is the table-driven account
    of that partition that the chains are proved to agree with. */
module Tempo {
  import opened Labels

  /** The thresholds, ascending. Bucket 0 is every tempo below `Bounds[0]`;
      bucket i, for 1 <= i <= 5, starts at `Bounds[i - 1]` inclusive and, when
      i < 5, ends at `Bounds[i]` exclusive. */
  const Bounds: seq<real> := [90.0, 115.0, 128.0, 140.0, 160.0]

  predicate Ascending(bs: seq<real>) {
    forall i, j :: 0 <= i < j < |bs| ==> bs[i] < bs[j]
  }

  /** The number of thresholds at or below `t`. */
  function Rank(bs: seq<real>, t: real): (k: nat)
    requires Ascending(bs)
    ensures k <= |bs|
    ensures forall i :: 0 <= i < |bs| ==> (bs[i] <= t <==> i < k)
    decreases |bs|
  {
    if bs == [] || t < bs[0] then 0
    else
      var k := 1 + Rank(bs[1..], t);
      assert forall i :: 1 <= i < |bs| ==> bs[i] == bs[1..][i - 1];
      k
  }

  /** The bucket of `t`: which of the six half-open intervals contains it. */
  function Bucket(t: real): (b: nat)
    ensures b < 6
    ensures forall i :: 0 <= i < 5 ==> (Bounds[i] <= t <==> i < b)
  {
    Rank(Bounds, t)
  }

  const Ambient := "Ambient / Downtempo"
  const PopRnb := "Pop / R&B"
  const House := "House"
  const Techno := "Techno"
  const DrumAndBass := "Drum & Bass / Jungle"
  const Hardcore := "Fast Electronic / Hardcore"

  /** The six style names, by bucket. */
  const Styles: seq<string> := [Ambient, PopRnb, House, Techno, DrumAndBass, Hardcore]

  /** `classify_style`. */
  function ClassifyStyle(t: real): (s: string)
    ensures s == Styles[Bucket(t)]
  {
    if t < 90.0 then Ambient
    else if t < 115.0 then PopRnb
    else if t < 128.0 then House
    else if t < 140.0 then Techno
    else if t < 160.0 then DrumAndBass
    else Hardcore
  }

  const AmbientKeywords := ["ambient", "downtempo", "chillout", "lofi"]
  const PopKeywords := ["pop", "rnb", "indie", "alternative"]
  const HouseKeywords := ["house", "deep house", "tech house"]
  const TechnoKeywords := ["techno", "minimal techno", "progressive"]
  const BassKeywords := ["drum and bass", "dnb", "jungle"]
  const HardcoreKeywords := ["hardcore", "hardstyle", "gabber"]

  /** The search keywords, by bucket. */
  const Keywords: seq<seq<string>> :=
    [AmbientKeywords, PopKeywords, HouseKeywords, TechnoKeywords, BassKeywords, HardcoreKeywords]

  /** `get_genre_keywords`: three or four keywords, so taking the first two
      always yields exactly two. */
  function GenreKeywords(t: real): (ks: seq<string>)
    ensures ks == Keywords[Bucket(t)]
    ensures 3 <= |ks| <= 4
  {
    if t < 90.0 then AmbientKeywords
    else if t < 115.0 then PopKeywords
    else if t < 128.0 then HouseKeywords
    else if t < 140.0 then TechnoKeywords
    else if t < 160.0 then BassKeywords
    else HardcoreKeywords
  }

  const LabelPage := "https://open.spotify.com/label/0aT7J5CbM8kHPVnFLGZsLz"

  const AmbientLabels := [
    LabelEntry("Ninja Tune", "https://open.spotify.com/label/0aOC4pKKYl9wDLqaScqBKq"),
    LabelEntry("Ghostly International", "https://open.spotify.com/label/0f1J4JvjYbVB1p1ZvLQmZg"),
    LabelEntry("Warp Records", LabelPage)
  ]
  const PopLabels := [
    LabelEntry("XL Recordings", LabelPage),
    LabelEntry("Interscope Records", LabelPage),
    LabelEntry("Republic Records", LabelPage)
  ]
  const HouseLabels := [
    LabelEntry("Defected Records", LabelPage),
    LabelEntry("Toolroom Records", LabelPage),
    LabelEntry("Spinnin' Deep", LabelPage)
  ]
  const TechnoLabels := [
    LabelEntry("Drumcode", LabelPage),
    LabelEntry("Afterlife", LabelPage),
    LabelEntry("KNTXT", LabelPage)
  ]
  const BassLabels := [
    LabelEntry("Hospital Records", LabelPage),
    LabelEntry("RAM Records", LabelPage),
    LabelEntry("Critical Music", LabelPage)
  ]

  /** The curated fallback lists. There are only five: buckets 4 and 5 share the last. */
  const Fallbacks: seq<seq<LabelEntry>> := [AmbientLabels, PopLabels, HouseLabels, TechnoLabels, BassLabels]

  /** `get_fallback_labels`: always three entries with distinct, non-empty names. */
  function FallbackLabels(t: real): (ls: seq<LabelEntry>)
    ensures ls == Fallbacks[if Bucket(t) < 4 then Bucket(t) else 4]
    ensures |ls| == 3 && WellFormed(ls)
  {
    if t < 90.0 then AmbientLabels
    else if t < 115.0 then PopLabels
    else if t < 128.0 then HouseLabels
    else if t < 140.0 then TechnoLabels
    else BassLabels
  }

  /** Each bucket is closed on the left and open on the right. */
  lemma BucketInterval(t: real, i: nat)
    requires i < 6
    ensures Bucket(t) == i <==> (i == 0 || Bounds[i - 1] <= t) && (i == 5 || t < Bounds[i])
  {
  }

  /** A faster tempo never lands in a lower bucket. */
  lemma BucketMonotonic(t1: real, t2: real)
    requires t1 <= t2
    ensures Bucket(t1) <= Bucket(t2)
  {
  }

  /** The style names are pairwise different, so the style identifies the bucket. */
  lemma StyleIdentifiesBucket(t1: real, t2: real)
    ensures ClassifyStyle(t1) == ClassifyStyle(t2) <==> Bucket(t1) == Bucket(t2)
  {
  }

  /** Keywords and style come from the same partition: two tempos get the same
      keywords, or even just the same first keyword, exactly when they get the
      same style. */
  lemma KeywordsAgreeWithStyle(t1: real, t2: real)
    ensures GenreKeywords(t1)[0] == GenreKeywords(t2)[0] <==> ClassifyStyle(t1) == ClassifyStyle(t2)
    ensures GenreKeywords(t1) == GenreKeywords(t2) <==> ClassifyStyle(t1) == ClassifyStyle(t2)
  {
  }

  /** Two tempos get the same fallback list exactly when they get the same style,
      or both are at least 140 BPM (Drum & Bass and Hardcore share one list). */
  lemma FallbackAgreesWithStyle(t1: real, t2: real)
    ensures FallbackLabels(t1) == FallbackLabels(t2)
        <==> ClassifyStyle(t1) == ClassifyStyle(t2) || (t1 >= 140.0 && t2 >= 140.0)
  {
  }
}
