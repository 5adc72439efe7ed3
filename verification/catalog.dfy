/** The remote music catalog as seen by the recommender: a search for artists and
    a lookup of an artist's top tracks, each of which may raise. The remote calls
    themselves are parameters of the model. */
module Catalog {
  import opened Prelude

  /** A top track. `Track(albumLabel)` carries the album's label field, `None` when the
      album or its label is missing; `Unreadable` is a track whose album cannot be
      read, so looking at it raises. */
  datatype Track = Track(albumLabel: Option<string>) | Unreadable(msg: string)

  /** An artist returned by a search: its id and its optional Spotify profile URL. */
  datatype Artist = Artist(id: string, url: Option<string>)

  /** A configured client. `search` receives the full query string and answers the
      returned artists (an empty list when the response has no artist items);
      `topTracks` receives an artist id and answers the returned tracks (an empty
      list when the response has none). */
  datatype Client = Client(search: string -> Fetch<seq<Artist>>, topTracks: string -> Fetch<seq<Track>>)

  /** The query sent for a genre keyword: the keyword behind a genre filter. */
  function SearchQuery(keyword: string): (q: string)
    ensures |q| == |keyword| + 6
    ensures q[..6] == "genre:" && q[6..] == keyword
  {
    "genre:" + keyword
  }

  /** The label name read from a track: the album's label, or the empty name when
      it is missing. A track is skipped exactly when this name is empty. */
  function LabelName(albumLabel: Option<string>): (n: string)
    ensures n != "" <==> albumLabel.Some? && albumLabel.value != ""
    ensures n != "" ==> n == albumLabel.value
  {
    albumLabel.GetOr("")
  }

  /** The URL stored with a label found on one of an artist's tracks: the
      artist's Spotify profile, or the empty string when it has none. */
  function ProfileUrl(a: Artist): (u: string)
    ensures a.url.Some? ==> u == a.url.value
    ensures a.url.None? ==> u == ""
  {
    a.url.GetOr("")
  }
}
