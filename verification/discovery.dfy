/** The discovery sequence: every candidate label the search looks at, in the
    order it looks at them (keyword, then artist, then track), with a catalog
    failure appearing as an event at the point where the failing call is made.
    This flat account is the reference the nested collection is proved against. */
module Discovery {
  import opened Prelude
  import opened Labels
  import opened Catalog
  import Tempo

  /** A candidate entry (its name may be empty), or a failed call with its message. */
  datatype Event = Seen(entry: LabelEntry) | Broke(msg: string)

  function TrackEvent(t: Track, url: string): Event {
    match t
    case Track(albumLabel) => Seen(LabelEntry(LabelName(albumLabel), url))
    case Unreadable(msg) => Broke(msg)
  }

  function TrackEvents(tracks: seq<Track>, url: string): seq<Event>
    decreases |tracks|
  {
    if tracks == [] then []
    else [TrackEvent(tracks[0], url)] + TrackEvents(tracks[1..], url)
  }

  /** The first two top tracks of an artist, each paired with the artist's URL. */
  function ArtistEvents(c: Client, a: Artist): seq<Event> {
    match c.topTracks(a.id)
    case Fail(msg) => [Broke(msg)]
    case Ok(tracks) => TrackEvents(Take(tracks, 2), ProfileUrl(a))
  }

  function ArtistsEvents(c: Client, artists: seq<Artist>): seq<Event>
    decreases |artists|
  {
    if artists == [] then []
    else ArtistEvents(c, artists[0]) + ArtistsEvents(c, artists[1..])
  }

  function KeywordEvents(c: Client, keyword: string): seq<Event> {
    match c.search(SearchQuery(keyword))
    case Fail(msg) => [Broke(msg)]
    case Ok(artists) => ArtistsEvents(c, artists)
  }

  function KeywordsEvents(c: Client, keywords: seq<string>): seq<Event>
    decreases |keywords|
  {
    if keywords == [] then []
    else KeywordEvents(c, keywords[0]) + KeywordsEvents(c, keywords[1..])
  }

  /** The discovery sequence for a tempo: only its first two genre keywords are searched. */
  function Stream(c: Client, tempo: real): seq<Event> {
    KeywordsEvents(c, Tempo.GenreKeywords(tempo)[..2])
  }

  /** The candidate entries seen before the first failure. */
  function Reached(evs: seq<Event>): (es: seq<LabelEntry>)
    ensures forall e :: e in es ==> Seen(e) in evs
    decreases |evs|
  {
    if evs == [] then []
    else match evs[0]
      case Broke(_) => []
      case Seen(e) => [e] + Reached(evs[1..])
  }

  /** The message of the first failure, if any. */
  function FailureOf(evs: seq<Event>): (f: Option<string>)
    ensures f.Some? ==> Broke(f.value) in evs
    decreases |evs|
  {
    if evs == [] then None
    else match evs[0]
      case Broke(msg) => Some(msg)
      case Seen(_) => FailureOf(evs[1..])
  }
}
