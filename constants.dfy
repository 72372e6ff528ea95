/** The static lookup tables of the audio features (src/functions/analysis_functions/constants.ts). */
module Constants {
  import opened Wrappers

  /** A human-readable characterisation of one audio feature. */
  datatype Label = Label(name: string, description: string)

  /** `Object.keys(translateAnalytics)`, in declaration order. */
  const AnalyticsKeys: seq<string> :=
    ["acousticness", "danceability", "energy", "instrumentalness", "liveness", "loudness",
     "valence", "tempo"]

  /** `translateAnalytics`: the label of a feature whose value is high. */
  const TranslateAnalytics: map<string, Label> := map[
    "acousticness" := Label("acoustic", "Music with natural instruments."),
    "danceability" := Label("upbeat", "Energetic and groove-inducing music."),
    "energy" := Label("dynamic", "High-energy and lively tunes."),
    "instrumentalness" := Label("instrumental", "Music without vocals."),
    "liveness" := Label("live", "Music performed in a live setting."),
    "loudness" := Label("loud", "Energetic and sonically powerful music."),
    "valence" := Label("positive", "Uplifting and feel-good melodies."),
    "tempo" := Label("tempo", "Music with a fast and vibrant tempo.")
  ]

  /** `translateAnalyticsLow`: the label of a feature whose value is low. */
  const TranslateAnalyticsLow: map<string, Label> := map[
    "acousticness" := Label("electronic", "Music with electronic instruments."),
    "danceability" := Label("subtle", "Music with a subtle rhythm."),
    "energy" := Label("calm", "Relaxed and calm music."),
    "instrumentalness" := Label("vocal", "Music that contains vocals."),
    "liveness" := Label("studio recorded", "Music that is recorded in a studio."),
    "loudness" := Label("soft", "Gentle and quiet music."),
    "valence" := Label("negative", "Music that feels downbeat."),
    "tempo" := Label("low tempo", "Music that moves at a moderate pace.")
  ]

  /** `analyticsMetrics`. */
  const AnalyticsMetrics: seq<string> :=
    ["acousticness", "danceability", "energy", "instrumentalness", "valence", "tempo"]

  /** `translateAnalytics[key]`; None stands for `undefined`. */
  function HighLabel(key: string): (r: Option<Label>)
    ensures r.Some? <==> key in AnalyticsKeys
    ensures r.Some? ==> r.value == TranslateAnalytics[key]
  {
    if key in TranslateAnalytics then Some(TranslateAnalytics[key]) else None
  }

  /** `translateAnalyticsLow[key]`; None stands for `undefined`. */
  function LowLabel(key: string): (r: Option<Label>)
    ensures r.Some? <==> key in AnalyticsKeys
    ensures r.Some? ==> r.value == TranslateAnalyticsLow[key]
  {
    if key in TranslateAnalyticsLow then Some(TranslateAnalyticsLow[key]) else None
  }

  /** Both tables are keyed by exactly the eight distinct keys of `AnalyticsKeys`. */
  lemma TablesShareKeys()
    ensures |AnalyticsKeys| == 8
    ensures forall i, j :: 0 <= i < j < |AnalyticsKeys| ==> AnalyticsKeys[i] != AnalyticsKeys[j]
    ensures TranslateAnalytics.Keys == (set k | k in AnalyticsKeys)
    ensures TranslateAnalyticsLow.Keys == TranslateAnalytics.Keys
  {
  }

  /** For every feature, the high name and the low name differ. */
  lemma HighDiffersFromLow()
    ensures forall k :: k in TranslateAnalytics ==>
      k in TranslateAnalyticsLow && TranslateAnalytics[k].name != TranslateAnalyticsLow[k].name
  {
  }

  /** Within the high table, no two features share a name. */
  lemma HighNamesDistinct()
    ensures forall k1, k2 :: k1 in TranslateAnalytics && k2 in TranslateAnalytics && k1 != k2 ==>
      TranslateAnalytics[k1].name != TranslateAnalytics[k2].name
  {
  }

  /** Within the low table, no two features share a name. */
  lemma LowNamesDistinct()
    ensures forall k1, k2 :: k1 in TranslateAnalyticsLow && k2 in TranslateAnalyticsLow && k1 != k2 ==>
      TranslateAnalyticsLow[k1].name != TranslateAnalyticsLow[k2].name
  {
  }

  /** `analyticsMetrics` names table keys only and leaves out liveness and loudness. */
  lemma MetricsAreTableKeys()
    ensures forall m :: m in AnalyticsMetrics ==> m in TranslateAnalytics
    ensures "liveness" !in AnalyticsMetrics && "loudness" !in AnalyticsMetrics
    ensures (set m | m in AnalyticsMetrics) == TranslateAnalytics.Keys - {"liveness", "loudness"}
  {
  }
}
