/** The pure parts of the upload handler: the file-name check, the tempo default
    applied to the detector's output, and how the response is assembled. The
    audio decoding and tempo detection are an input (`detected`), the catalog
    client is an input, and the HTTP layer is reduced to the three outcomes. */
module Analysis {
  import opened Prelude
  import opened Labels
  import opened Catalog
  import opened Tempo
  import opened Recommend

  /** ASCII lower-casing of one character. */
  function LowerChar(ch: char): char {
    if 'A' <= ch <= 'Z' then (ch as int + 32) as char else ch
  }

  /** Lower-casing of a string, for ASCII letters only. */
  function Lower(s: string): (r: string)
    ensures |r| == |s|
    ensures forall i :: 0 <= i < |s| ==> r[i] == LowerChar(s[i])
  {
    seq(|s|, i requires 0 <= i < |s| => LowerChar(s[i]))
  }

  predicate EndsWith(s: string, suffix: string) {
    |suffix| <= |s| && s[|s| - |suffix|..] == suffix
  }

  /** The upload check: the lower-cased file name ends with ".wav". A name passes
      exactly when its last four characters are '.', then 'w', 'a' and 'v' in
      either case. */
  function IsWavName(name: string): (ok: bool)
    ensures ok <==>
      && |name| >= 4
      && name[|name| - 4] == '.'
      && (name[|name| - 3] == 'w' || name[|name| - 3] == 'W')
      && (name[|name| - 2] == 'a' || name[|name| - 2] == 'A')
      && (name[|name| - 1] == 'v' || name[|name| - 1] == 'V')
  {
    EndsWith(Lower(name), ".wav")
  }

  /** Only the case of the name matters. */
  lemma WavNameIgnoresCase(name: string)
    ensures IsWavName(Lower(name)) == IsWavName(name)
  {
  }

  /** The tempo used when detection gives no positive value. */
  const DefaultTempo: real := 120.0

  /** The tempo passed downstream: the detector's output when it is positive,
      otherwise `DefaultTempo`. */
  function EffectiveTempo(bpm: real): (t: real)
    ensures t > 0.0
    ensures bpm > 0.0 ==> t == bpm
    ensures bpm <= 0.0 ==> t == DefaultTempo
  {
    if bpm > 0.0 then bpm else DefaultTempo
  }

  /** What the upload endpoint answers. */
  datatype Response =
    | Analysed(tempo: real, style: string, labels: seq<LabelEntry>)
    | BadRequest(detail: string)
    | ServerError(detail: string)

  const WavOnly := "Only WAV files are supported"

  /** `analyze_track`. `detected` is the detector's raw output, or the message of
      the exception decoding or detection raised. */
  function Analyze(filename: string, detected: Fetch<real>, client: Option<Client>): (r: Response)
    ensures !IsWavName(filename) ==> r == BadRequest(WavOnly)
    ensures IsWavName(filename) && detected.Fail? ==> r == ServerError("Analysis failed: " + detected.msg)
    ensures IsWavName(filename) && detected.Ok? ==> r.Analysed?
    ensures r.Analysed? ==>
      && r.tempo == EffectiveTempo(detected.value)
      && r.tempo > 0.0
      && r.style in Styles
      && r.style == ClassifyStyle(r.tempo)
      && r.labels == SearchLabels(client, r.tempo)
      && |r.labels| <= Cap
      && WellFormed(r.labels)
  {
    if !IsWavName(filename) then BadRequest(WavOnly)
    else match detected
      case Fail(msg) => ServerError("Analysis failed: " + msg)
      case Ok(bpm) =>
        var tempo := EffectiveTempo(bpm);
        Analysed(tempo, ClassifyStyle(tempo), SearchLabels(client, tempo))
  }
}
