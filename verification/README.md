# BeatMatch label recommender: a Dafny model

BeatMatch is a small web service. It takes an uploaded WAV file, estimates its
tempo in BPM, names a musical style for that tempo, and looks up record labels
for the style in the Spotify catalog. This project models the part of `main.py`
that has logic of its own:

- **Tempo bucketing** (`Tempo`). `classify_style`, `get_genre_keywords` and
  `get_fallback_labels` are chains of half-open threshold tests at 90, 115, 128,
  140 and 160 BPM. Each chain is proved equal to a lookup in a table indexed by
  `Bucket`, which counts the thresholds at or below the tempo. The three
  functions therefore agree on the partition. The fallback chain has only five
  branches, so every tempo of 140 BPM or more gets the same fallback list.
- **Label collection** (`Catalog`, `Discovery`, `Recommend`).
  `search_labels_on_spotify` takes the catalog as an input: a `Client` with a
  search function and a top-tracks function, each of which may fail with a
  message. `ScanKeywords`, `ScanArtists` and `ScanTracks` follow the source's
  three nested loops:
  - only the first 2 keywords and the first 2 tracks of each artist are used;
  - every returned artist is visited;
  - empty labels and repeated names are skipped;
  - the search returns as soon as 8 labels are held;
  - the first failing call aborts the search.

  `Discovery.Stream` is the independent account. It is the flat sequence of
  candidate labels in discovery order (keyword, then artist, then track), with a
  failure recorded where the failing call happens. `SearchIsFirstDistinct` proves
  that the search returns:
  - the first 8 distinct non-empty labels of that sequence, when 8 come before
    any failure;
  - otherwise, the single error entry if a call failed;
  - otherwise, every distinct label found;
  - or the fallback list when none were found.
- **Guards** (`Analysis`). The `.wav` file-name check, the rule that replaces a
  non-positive detector output with 120.0, and how the upload handler combines
  these pieces into a 200, 400 or 500 answer.

Details of the code the model keeps:
- The style names have spaces around the slash (`"Ambient / Downtempo"`).
- There are five fallback lists, not six. Most fallback URLs are the same link.
- The code does not cap the number of artists itself. `limit=5` is only a
  request parameter, so the model visits every artist the search returns.
- The final `[:8]` truncation applies only to the path that completes without
  returning early. The cap on the early-return path comes from the loop itself
  (`Recommend.Sound`).
- A failing call made after 8 labels were collected never happens, because the
  code has already returned. The model keeps this order.

## Model

| member | source | states |
|---|---|---|
| `Tempo.Rank` | main.py:49-60 | For ascending thresholds, the rank is at most the number of thresholds, and threshold i is at or below the tempo exactly when i is less than the rank |
| `Tempo.Bucket` | main.py:49-60 | The bucket is one of six; threshold i (90, 115, 128, 140, 160) is at or below the tempo exactly when i is below the bucket |
| `Tempo.ClassifyStyle` | main.py:47-60 | The style is the table entry for the tempo's bucket, so it is always one of the six style names |
| `Tempo.BucketInterval` | main.py:49-60 | A tempo lies in bucket i exactly when it is at or above the lower threshold and below the upper one (closed left, open right; unbounded at both ends) |
| `Tempo.BucketMonotonic` | main.py:49-60 | A higher tempo never gets a lower bucket |
| `Tempo.StyleIdentifiesBucket` | main.py:47-60 | Two tempos get the same style exactly when they are in the same bucket |
| `Tempo.GenreKeywords` | main.py:63-76 | The keywords are the table entry for the same bucket as the style; there are 3 or 4 of them, so taking the first 2 always yields exactly 2 |
| `Tempo.KeywordsAgreeWithStyle` | main.py:63-76 | Two tempos get the same keywords, and also the same first keyword, exactly when they get the same style |
| `Tempo.FallbackLabels` | main.py:127-158 | The fallback list is the bucket's entry in a five-row table, with buckets 4 and 5 merged; it has exactly 3 entries with distinct non-empty names |
| `Tempo.FallbackAgreesWithStyle` | main.py:127-158 | Two tempos get the same fallback list exactly when they get the same style, or when both are 140 BPM or more |
| `Catalog.SearchQuery` | main.py:94 | The search query is the keyword behind the `genre:` filter, and the keyword can be read back from it |
| `Catalog.LabelName` | main.py:104-105 | The name read from a track is empty exactly when the album or its label is missing or the label is empty; otherwise it is the label itself |
| `Catalog.ProfileUrl` | main.py:110 | The URL stored with a label is the artist's Spotify URL, or "" when the artist has none |
| `Recommend.ErrorEntry` | main.py:116-118 | The error entry has no URL and a non-empty name made of "Search error: " followed by the failure's message, which can be read back from it |
| `Labels.Keep` | main.py:107-111 | A candidate is appended exactly when its name is non-empty and not yet listed; otherwise the list is unchanged; distinct non-empty names are preserved |
| `Labels.Distinct` | main.py:103-111 | Deduplication yields distinct non-empty names; every kept entry is a candidate, and every non-empty candidate name is kept |
| `Labels.DistinctPrefix` | main.py:107-114 | Looking at more candidates only appends to what was collected before |
| `Labels.DistinctFirstOccurrences` | main.py:107-111 | Each kept entry is the first candidate with that name (so its URL is the URL of the first occurrence), and kept entries are ordered by first occurrence |
| `Recommend.ScanTracks` | main.py:102-114 | The track loop only appends, keeps names distinct and non-empty, returns with exactly 8 when capped and holds fewer than 8 otherwise |
| `Recommend.ScanArtists` | main.py:97-114 | The artist loop keeps the same invariant, including when a top-tracks call fails |
| `Recommend.ScanKeywords` | main.py:93-114 | The keyword loop keeps the same invariant, including when a search call fails |
| `Recommend.ScanTracksIsCollect` | main.py:102-114 | The track loop equals the flat fold over that artist's track events |
| `Recommend.ScanArtistsIsCollect` | main.py:94-114 | The artist loop, including its early returns, equals the flat fold over the concatenated events of the artists |
| `Recommend.ScanKeywordsIsCollect` | main.py:93-114 | The three nested loops, with early return and abort, equal one fold over the discovery sequence |
| `Recommend.CappedIsPrefix` | main.py:107-114 | Once the 8th distinct label is collected, the labels after it cannot change the first 8, so returning at that point loses nothing |
| `Recommend.CollectIsFirstDistinct` | main.py:103-114 | The fold returns the first 8 distinct non-empty candidates before the first failure when 8 exist; otherwise it aborts at the failure if there is one; otherwise it returns all of them |
| `Recommend.SearchLabels` | main.py:79-124 | The result has at most 8 entries with distinct non-empty names on every path; with no client it is the 3 configuration placeholders, whatever the tempo |
| `Recommend.SearchIsFirstDistinct` | main.py:88-124 | A configured search returns the first 8 distinct labels of the discovery sequence when 8 come before any failure; else the single "Search error: " entry for the first failure; else all distinct labels found; else exactly the tempo's fallback list |
| `Recommend.SearchEntriesAreDiscovered` | main.py:103-111 | When labels were found and no failure cut the search short, each returned entry is a discovered candidate: a label on one of the first two tracks of a searched artist, with that artist's URL or "" |
| `Analysis.IsWavName` | main.py:216 | A file name is accepted exactly when its last four characters are '.', then w, a and v in either case |
| `Analysis.WavNameIgnoresCase` | main.py:216 | Lower-casing a name does not change whether it is accepted |
| `Analysis.EffectiveTempo` | main.py:202-203 | The tempo passed downstream is always positive: a positive detector output is kept unchanged, and any other value becomes 120.0 |
| `Analysis.Analyze` | main.py:215-244 | A name without the .wav suffix gets a 400 answer whatever the audio; a detection failure gets a 500 answer carrying the message; otherwise the answer's tempo is the detector's output when positive and 120.0 otherwise, with that tempo's style and at most 8 well-formed labels found for it |

## Left out

- The FastAPI app, the routes, the CORS middleware and the health check (main.py:19-28, 161-168): HTTP plumbing. The 400/500 mapping is kept only as the three `Analysis.Response` cases.
- Spotify client construction from environment variables (main.py:30-44): this initialises a foreign library. It is reduced to `Option<Client>`, where `None` means not configured.
- The real `sp.search` and `sp.artist_top_tracks` calls: they are the functions of a `Client` input. Their request parameters (`type="artist"`, `limit=5`) and network behaviour belong to the remote side. The catalog is assumed to answer the same request the same way every time, so an artist returned under both keywords gets the same top-tracks answer both times.
- Responses with no `artists`, no `items` or no `tracks`: these are modelled as an empty list from the catalog function.
- An artist with no `id`: this raises just before its top tracks are fetched, so it is modelled as that `topTracks` call failing.
- A null album: this raises while its track is read, and is modelled as `Track.Unreadable`.
- A null `external_urls` and non-string label values are not modelled.
- The DSP pipeline in `detect_bpm_aubio` (main.py:171-201): pydub decoding, resampling, normalisation and aubio tempo tracking are foreign calls on floating-point data. Their result is the `detected` input of `Analysis.Analyze`.
- Analysis.EffectiveTempo: tempos are Dafny reals, so float NaN and infinities are not modelled. For NaN the source's `bpm > 0` would be false, giving 120.0.
- Analysis.IsWavName: lower-casing is modelled for ASCII letters only. Unicode case mapping is not modelled.
- Temporary file creation and cleanup, and the async upload read (main.py:219-226, 246-249): filesystem I/O.
- The `print` logging (main.py:44, 117).
