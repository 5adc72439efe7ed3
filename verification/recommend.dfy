/** `search_labels_on_spotify`: collect record labels from the catalog for a tempo.
    `ScanKeywords`, `ScanArtists` and `ScanTracks` follow the three nested loops of
    the source, including the early return once 8 labels are held and the abort on
    the first failing call; `Collect` is the same collection as one fold over the
    flat discovery sequence. */
module Recommend {
  import opened Prelude
  import opened Labels
  import opened Catalog
  import opened Discovery
  import opened Tempo

  /** Most labels a search returns. */
  const Cap := 8

  /** The state of the collection after a loop: still collecting, returned early
      with `Cap` labels, or aborted by a failed call. */
  datatype Scan = Partial(labels: seq<LabelEntry>) | Capped(labels: seq<LabelEntry>) | Failed(msg: string)

  /** The collection invariant for a scan started from `labels`: it only appends,
      keeps the names non-empty and distinct, returns early with exactly `Cap`
      entries and otherwise holds fewer. */
  predicate Sound(labels: seq<LabelEntry>, s: Scan) {
    match s
    case Failed(_) => true
    case Partial(ls) => labels <= ls && WellFormed(ls) && |ls| < Cap
    case Capped(ls) => labels <= ls && WellFormed(ls) && |ls| == Cap
  }

  /** The inner loop over (the first two of) an artist's top tracks. */
  function ScanTracks(tracks: seq<Track>, url: string, labels: seq<LabelEntry>): (s: Scan)
    ensures WellFormed(labels) && |labels| < Cap ==> Sound(labels, s)
    decreases |tracks|
  {
    if tracks == [] then Partial(labels)
    else match tracks[0]
      case Unreadable(msg) => Failed(msg)
      case Track(albumLabel) =>
        var ls := Keep(labels, LabelEntry(LabelName(albumLabel), url));
        if |ls| >= Cap then Capped(ls) else ScanTracks(tracks[1..], url, ls)
  }

  /** The middle loop over the artists one search returned. */
  function ScanArtists(c: Client, artists: seq<Artist>, labels: seq<LabelEntry>): (s: Scan)
    ensures WellFormed(labels) && |labels| < Cap ==> Sound(labels, s)
    decreases |artists|
  {
    if artists == [] then Partial(labels)
    else match c.topTracks(artists[0].id)
      case Fail(msg) => Failed(msg)
      case Ok(tracks) =>
        match ScanTracks(Take(tracks, 2), ProfileUrl(artists[0]), labels)
        case Partial(ls) => ScanArtists(c, artists[1..], ls)
        case stop => stop
  }

  /** The outer loop over the searched keywords. */
  function ScanKeywords(c: Client, keywords: seq<string>, labels: seq<LabelEntry>): (s: Scan)
    ensures WellFormed(labels) && |labels| < Cap ==> Sound(labels, s)
    decreases |keywords|
  {
    if keywords == [] then Partial(labels)
    else match c.search(SearchQuery(keywords[0]))
      case Fail(msg) => Failed(msg)
      case Ok(artists) =>
        match ScanArtists(c, artists, labels)
        case Partial(ls) => ScanKeywords(c, keywords[1..], ls)
        case stop => stop
  }

  /** The collection as one fold over a flat sequence of events. */
  function Collect(evs: seq<Event>, labels: seq<LabelEntry>): Scan
    decreases |evs|
  {
    if evs == [] then Partial(labels)
    else match evs[0]
      case Broke(msg) => Failed(msg)
      case Seen(e) =>
        var ls := Keep(labels, e);
        if |ls| >= Cap then Capped(ls) else Collect(evs[1..], ls)
  }

  /** Continue a scan with more events, unless it has already stopped. */
  function Resume(s: Scan, evs: seq<Event>): Scan {
    if s.Partial? then Collect(evs, s.labels) else s
  }

  lemma {:induction false} CollectAppend(a: seq<Event>, b: seq<Event>, labels: seq<LabelEntry>)
    ensures Collect(a + b, labels) == Resume(Collect(a, labels), b)
    decreases |a|
  {
    if a == [] {
      assert a + b == b;
    } else {
      assert (a + b)[0] == a[0];
      assert (a + b)[1..] == a[1..] + b;
      match a[0]
      case Broke(_) =>
      case Seen(e) =>
        CollectAppend(a[1..], b, Keep(labels, e));
    }
  }

  lemma {:induction false} ScanTracksIsCollect(tracks: seq<Track>, url: string, labels: seq<LabelEntry>)
    ensures ScanTracks(tracks, url, labels) == Collect(TrackEvents(tracks, url), labels)
    decreases |tracks|
  {
    if tracks != [] {
      var evs := TrackEvents(tracks, url);
      assert evs[0] == TrackEvent(tracks[0], url);
      assert evs[1..] == TrackEvents(tracks[1..], url);
      match tracks[0]
      case Unreadable(_) =>
      case Track(albumLabel) =>
        ScanTracksIsCollect(tracks[1..], url, Keep(labels, LabelEntry(LabelName(albumLabel), url)));
    }
  }

  lemma {:induction false} ScanArtistsIsCollect(c: Client, artists: seq<Artist>, labels: seq<LabelEntry>)
    ensures ScanArtists(c, artists, labels) == Collect(ArtistsEvents(c, artists), labels)
    decreases |artists|
  {
    if artists != [] {
      var a := artists[0];
      CollectAppend(ArtistEvents(c, a), ArtistsEvents(c, artists[1..]), labels);
      match c.topTracks(a.id)
      case Fail(msg) =>
        assert ArtistEvents(c, a) == [Broke(msg)];
      case Ok(tracks) =>
        ScanTracksIsCollect(Take(tracks, 2), ProfileUrl(a), labels);
        match ScanTracks(Take(tracks, 2), ProfileUrl(a), labels)
        case Partial(ls) => ScanArtistsIsCollect(c, artists[1..], ls);
        case Capped(_) =>
        case Failed(_) =>
    }
  }

  lemma {:induction false} ScanKeywordsIsCollect(c: Client, keywords: seq<string>, labels: seq<LabelEntry>)
    ensures ScanKeywords(c, keywords, labels) == Collect(KeywordsEvents(c, keywords), labels)
    decreases |keywords|
  {
    if keywords != [] {
      var k := keywords[0];
      CollectAppend(KeywordEvents(c, k), KeywordsEvents(c, keywords[1..]), labels);
      match c.search(SearchQuery(k))
      case Fail(msg) =>
        assert KeywordEvents(c, k) == [Broke(msg)];
      case Ok(artists) =>
        ScanArtistsIsCollect(c, artists, labels);
        match ScanArtists(c, artists, labels)
        case Partial(ls) => ScanKeywordsIsCollect(c, keywords[1..], ls);
        case Capped(_) =>
        case Failed(_) =>
    }
  }

  /** Once the 8th distinct candidate is seen, later candidates cannot change the
      first 8. */
  lemma CappedIsPrefix(pre: seq<LabelEntry>, e: LabelEntry, later: seq<LabelEntry>)
    requires |Distinct(pre)| < Cap <= |Distinct(pre + [e])|
    ensures var d := Distinct(pre + [e] + later);
      |d| >= Cap && d[..Cap] == Distinct(pre + [e])
  {
    DistinctSnoc(pre, e);
    DistinctPrefix(pre + [e], later);
  }

  /** Folding the events after the candidates `pre` gives the first `Cap` distinct
      non-empty candidates seen before the first failure; when fewer exist, the
      failure if there is one, and otherwise all of them. */
  lemma {:induction false} CollectIsFirstDistinct(evs: seq<Event>, pre: seq<LabelEntry>)
    requires |Distinct(pre)| < Cap
    ensures var d := Distinct(pre + Reached(evs));
      Collect(evs, Distinct(pre)) ==
        if |d| >= Cap then Capped(d[..Cap])
        else if FailureOf(evs).Some? then Failed(FailureOf(evs).value)
        else Partial(d)
    decreases |evs|
  {
    if evs == [] {
      assert pre + Reached(evs) == pre;
    } else {
      match evs[0]
      case Broke(_) =>
        assert pre + Reached(evs) == pre;
      case Seen(e) =>
        var rest := evs[1..];
        assert Reached(evs) == [e] + Reached(rest);
        assert FailureOf(evs) == FailureOf(rest);
        assert pre + Reached(evs) == (pre + [e]) + Reached(rest);
        DistinctSnoc(pre, e);
        var ls := Distinct(pre + [e]);
        assert Collect(evs, Distinct(pre)) == if |ls| >= Cap then Capped(ls) else Collect(rest, ls);
        if |ls| >= Cap {
          CappedIsPrefix(pre, e, Reached(rest));
        } else {
          CollectIsFirstDistinct(rest, pre + [e]);
        }
    }
  }

  const ConfigureUrl := "https://developer.spotify.com/dashboard"

  /** The answer when no client is configured. */
  const NotConfigured := [
    LabelEntry("Spotify API not configured", ConfigureUrl),
    LabelEntry("Set SPOTIFY_CLIENT_ID", ConfigureUrl),
    LabelEntry("Set SPOTIFY_CLIENT_SECRET", ConfigureUrl)
  ]

  /** The single entry reporting a failed catalog call: a non-empty name from which
      the failure's message can be read back, and no URL. */
  function ErrorEntry(msg: string): (e: LabelEntry)
    ensures e.name != "" && e.url == ""
    ensures |e.name| == |msg| + 14
    ensures e.name[..14] == "Search error: " && e.name[14..] == msg
  {
    LabelEntry("Search error: " + msg, "")
  }

  /** `search_labels_on_spotify`; `client` is `None` when the catalog client is not configured. */
  function SearchLabels(client: Option<Client>, tempo: real): (r: seq<LabelEntry>)
    ensures |r| <= Cap
    ensures WellFormed(r)
    ensures client.None? ==> r == NotConfigured
  {
    match client
    case None => NotConfigured
    case Some(c) =>
      match ScanKeywords(c, Take(GenreKeywords(tempo), 2), [])
      case Failed(msg) => [ErrorEntry(msg)]
      case Capped(ls) => ls
      case Partial(ls) => Take(if ls == [] then FallbackLabels(tempo) else ls, Cap)
  }

  /** What a configured search returns, in terms of the discovery sequence. Let d
      be the distinct non-empty labels seen before the first failure, in order of
      discovery. With `Cap` or more, the answer is the first `Cap` of them (the
      failure, if any, is never reached); otherwise a failure yields the single
      error entry; otherwise d itself, or the fallback list when d is empty. */
  lemma SearchIsFirstDistinct(c: Client, tempo: real)
    ensures var evs := Stream(c, tempo);
      var d := Distinct(Reached(evs));
      var r := SearchLabels(Some(c), tempo);
      && (|d| >= Cap ==> r == d[..Cap])
      && (|d| < Cap && FailureOf(evs).Some? ==> r == [ErrorEntry(FailureOf(evs).value)])
      && (|d| < Cap && FailureOf(evs).None? && d != [] ==> r == d)
      && (|d| < Cap && FailureOf(evs).None? && d == [] ==> r == FallbackLabels(tempo))
  {
    var keywords := GenreKeywords(tempo);
    assert Take(keywords, 2) == keywords[..2];
    var evs := Stream(c, tempo);
    ScanKeywordsIsCollect(c, keywords[..2], []);
    assert Distinct([]) == [];
    assert [] + Reached(evs) == Reached(evs);
    CollectIsFirstDistinct(evs, []);
  }

  /** Every entry a configured search returns that is not an error report is a
      candidate of the discovery sequence: a label on one of the first two top
      tracks of a searched artist, stored with that artist's URL. */
  lemma SearchEntriesAreDiscovered(c: Client, tempo: real)
    ensures var evs := Stream(c, tempo);
      var r := SearchLabels(Some(c), tempo);
      var d := Distinct(Reached(evs));
      d != [] && (|d| >= Cap || FailureOf(evs).None?) ==>
        forall e :: e in r ==> Seen(e) in evs
  {
    SearchIsFirstDistinct(c, tempo);
  }
}
