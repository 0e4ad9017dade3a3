/**
 * The continuous trust score: a running score smoothed towards a fresh
 * sample on every request, classified by two thresholds, explained by a
 * list of risk factors and recorded in a history of the last 100 results.
 *
 * The samples, the device-fingerprint draw, the confidence draw and the
 * clock are parameters, constrained to the ranges the service draws them from.
 */
module Trust {

  datatype TrustLevel = High | Medium | Low

  datatype Action = AllowSeamless | AllowWithMonitoring | RequireAdditionalVerification

  function LevelName(l: TrustLevel): string {
    match l
    case High => "HIGH"
    case Medium => "MEDIUM"
    case Low => "LOW"
  }

  function ActionName(a: Action): string {
    match a
    case AllowSeamless => "ALLOW_SEAMLESS"
    case AllowWithMonitoring => "ALLOW_WITH_MONITORING"
    case RequireAdditionalVerification => "REQUIRE_ADDITIONAL_VERIFICATION"
  }

  datatype TrustScore = TrustScore(
    currentScore: real,
    trustLevel: TrustLevel,
    riskFactors: seq<string>,
    confidence: real,
    recommendedAction: Action,
    timestamp: real)

  const InitialScore: real := 75.0
  const HistoryCap: nat := 100

  /** The range `random.uniform(70, 90)` draws every sample from. */
  predicate InBand(x: real) {
    70.0 <= x <= 90.0
  }

  predicate AllInBand(samples: seq<real>) {
    forall i :: 0 <= i < |samples| ==> InBand(samples[i])
  }

  // ------------------------------------------------------------- smoothing

  /** One step of the exponential moving average: the new score lies between the old score and the sample. */
  function Smooth(prev: real, sample: real): (r: real)
    ensures prev <= sample ==> prev <= r <= sample
    ensures sample <= prev ==> sample <= r <= prev
    ensures InBand(prev) && InBand(sample) ==> InBand(r)
  {
    0.7 * prev + 0.3 * sample
  }

  /**
   * The running score after the given samples, starting from the baseline
   * of 75: however many samples from [70, 90] are served, it stays within [70, 90].
   */
  function ScoreAfter(samples: seq<real>): (r: real)
    ensures AllInBand(samples) ==> InBand(r)
  {
    if |samples| == 0 then InitialScore
    else
      var prefix := samples[..|samples| - 1];
      assert AllInBand(samples) ==> AllInBand(prefix) by {
        if AllInBand(samples) {
          forall i | 0 <= i < |prefix| ensures InBand(prefix[i]) {
            assert prefix[i] == samples[i];
          }
        }
      }
      Smooth(ScoreAfter(prefix), samples[|samples| - 1])
  }

  // -------------------------------------------------------- classification

  /** The level and the recommended action for an (unrounded) score. */
  function Classify(score: real): (r: (TrustLevel, Action))
    ensures r.0 == High <==> score >= 85.0
    ensures r.0 == Medium <==> 65.0 <= score < 85.0
    ensures r.0 == Low <==> score < 65.0
    ensures r.0 == High <==> r.1 == AllowSeamless
    ensures r.0 == Medium <==> r.1 == AllowWithMonitoring
    ensures r.0 == Low <==> r.1 == RequireAdditionalVerification
    ensures LevelName(r.0) == "HIGH" && ActionName(r.1) == "ALLOW_SEAMLESS" <==> score >= 85.0
    ensures LevelName(r.0) == "MEDIUM" && ActionName(r.1) == "ALLOW_WITH_MONITORING" <==> 65.0 <= score < 85.0
    ensures LevelName(r.0) == "LOW" && ActionName(r.1) == "REQUIRE_ADDITIONAL_VERIFICATION" <==> score < 65.0
  {
    if score >= 85.0 then (High, AllowSeamless)
    else if score >= 65.0 then (Medium, AllowWithMonitoring)
    else (Low, RequireAdditionalVerification)
  }

  function Rank(l: TrustLevel): nat {
    match l
    case Low => 0
    case Medium => 1
    case High => 2
  }

  /** A higher score never gets a lower level. */
  lemma ClassifyMonotone(s: real, t: real)
    requires s <= t
    ensures Rank(Classify(s).0) <= Rank(Classify(t).0)
  {
  }

  /** Inside the band every score can reach, the level is never LOW. */
  lemma InBandNeverLow(samples: seq<real>)
    requires AllInBand(samples)
    ensures Classify(ScoreAfter(samples)).0 != Low
  {
  }

  // ----------------------------------------------------------- risk factors

  const BehavioralVariation: string := "Behavioral pattern variation detected"
  const NewDeviceFingerprint: string := "New device fingerprint"
  const AllMetricsNormal: string := "All metrics within normal range"

  /** The risk factors for a score and the device-fingerprint draw (`random.random() < 0.2`). */
  function RiskFactors(score: real, deviceDraw: real): (r: seq<string>)
    ensures |r| >= 1
    ensures BehavioralVariation in r <==> score < 80.0
    ensures NewDeviceFingerprint in r <==> deviceDraw < 0.2
    ensures r == [AllMetricsNormal] <==> score >= 80.0 && deviceDraw >= 0.2
    ensures AllMetricsNormal in r ==> r == [AllMetricsNormal]
  {
    var triggered := (if score < 80.0 then [BehavioralVariation] else [])
                   + (if deviceDraw < 0.2 then [NewDeviceFingerprint] else []);
    if triggered == [] then [AllMetricsNormal] else triggered
  }

  /** The risk factors built the way the service builds them, by appending to an empty list. */
  method CollectRiskFactors(score: real, deviceDraw: real) returns (riskFactors: seq<string>)
    ensures riskFactors == RiskFactors(score, deviceDraw)
  {
    riskFactors := [];
    if score < 80.0 {
      riskFactors := riskFactors + [BehavioralVariation];
    }
    if deviceDraw < 0.2 {
      riskFactors := riskFactors + [NewDeviceFingerprint];
    }
    if riskFactors == [] {
      riskFactors := riskFactors + [AllMetricsNormal];
    }
  }

  // ---------------------------------------------------------------- history

  /**
   * The history after appending: the oldest entry is dropped once it holds
   * more than 100, so a history of at most 101 entries is cut to at most
   * 100, keeps its newest entry, and is otherwise left alone.
   */
  function Capped(h: seq<TrustScore>): (r: seq<TrustScore>)
    ensures |h| <= HistoryCap ==> r == h
    ensures |h| <= HistoryCap + 1 ==> |r| <= HistoryCap
    ensures |h| > 0 ==> |r| > 0 && r[|r| - 1] == h[|h| - 1]
  {
    if |h| > HistoryCap then h[1..] else h
  }

  /** The last (at most) 100 of all results produced so far, oldest first. */
  function Recent(results: seq<TrustScore>): (r: seq<TrustScore>)
    ensures |r| == if |results| <= HistoryCap then |results| else HistoryCap
    ensures r == results[|results| - |r|..]
    ensures |results| > 0 ==> r[|r| - 1] == results[|results| - 1]
  {
    if |results| <= HistoryCap then results else results[|results| - HistoryCap..]
  }

  /** Appending to the last 100 results and dropping the oldest past the cap gives the last 100 of the longer run. */
  lemma CappedRecent(results: seq<TrustScore>, x: TrustScore)
    ensures Capped(Recent(results) + [x]) == Recent(results + [x])
  {
    var all := results + [x];
    if |results| >= HistoryCap {
      assert Recent(results)[1..] + [x] == all[|all| - HistoryCap..];
    }
  }

  // ------------------------------------------------------------- the tracker

  /**
   * The tracker's invariant on plain values: every sample is in the band,
   * the running score is the smoothing of the samples, there is one result
   * per sample, the history is the latest 100 results, and the newest
   * result reports the running score.
   */
  ghost predicate Consistent(samples: seq<real>, results: seq<TrustScore>, score: real, history: seq<TrustScore>) {
    && AllInBand(samples)
    && score == ScoreAfter(samples)
    && |results| == |samples|
    && history == Recent(results)
    && (|results| > 0 ==> results[|results| - 1].currentScore == score)
  }

  /** Serving one request (smooth, record, cap) keeps the invariant, and the score stays in the band. */
  lemma ConsistentStep(samples: seq<real>, results: seq<TrustScore>, score: real, history: seq<TrustScore>,
                       sample: real, r: TrustScore)
    requires Consistent(samples, results, score, history)
    requires InBand(sample) && r.currentScore == Smooth(score, sample)
    ensures Consistent(samples + [sample], results + [r], Smooth(score, sample), Capped(history + [r]))
    ensures InBand(Smooth(score, sample))
    ensures |Capped(history + [r])| <= HistoryCap
  {
    ScoreAfterAppend(samples, sample);
    AllInBandAppend(samples, sample);
    CappedRecent(results, r);
  }

  lemma ScoreAfterAppend(samples: seq<real>, sample: real)
    ensures ScoreAfter(samples + [sample]) == Smooth(ScoreAfter(samples), sample)
  {
    var samples' := samples + [sample];
    assert samples'[..|samples'| - 1] == samples;
  }

  lemma AllInBandAppend(samples: seq<real>, sample: real)
    requires AllInBand(samples) && InBand(sample)
    ensures AllInBand(samples + [sample])
  {
    var samples' := samples + [sample];
    forall i | 0 <= i < |samples'| ensures InBand(samples'[i]) {
      if i < |samples| { assert samples'[i] == samples[i]; }
    }
  }

  class TrustCalculator {
    var currentScore: real
    var scoreHistory: seq<TrustScore>
    /** Every base-score sample drawn so far, and every result handed out so far. */
    ghost var samples: seq<real>
    ghost var results: seq<TrustScore>

    /**
     * The running score is the smoothing of the samples drawn so far, the
     * history holds the latest 100 results, and the last result reports
     * the current score.
     */
    ghost predicate Valid()
      reads this
    {
      Consistent(samples, results, currentScore, scoreHistory)
    }

    constructor ()
      ensures Valid()
      ensures currentScore == InitialScore && scoreHistory == []
      ensures samples == [] && results == []
    {
      currentScore := InitialScore;
      scoreHistory := [];
      samples := [];
      results := [];
    }

    /**
     * `calculate_trust_score`: smooth the score towards the sample,
     * classify it, derive the risk factors, record the result.
     */
    method CalculateTrustScore(baseScore: real, deviceDraw: real, confidence: real, now: real)
      returns (r: TrustScore)
      requires Valid()
      requires InBand(baseScore) && 0.0 <= deviceDraw < 1.0 && 0.8 <= confidence <= 0.95
      modifies this
      ensures Valid()
      ensures samples == old(samples) + [baseScore] && results == old(results) + [r]
      ensures currentScore == Smooth(old(currentScore), baseScore) && InBand(currentScore)
      ensures r.currentScore == currentScore
      ensures (r.trustLevel, r.recommendedAction) == Classify(currentScore)
      ensures r.riskFactors == RiskFactors(currentScore, deviceDraw)
      ensures r.confidence == confidence && r.timestamp == now
      ensures scoreHistory == Capped(old(scoreHistory) + [r])
      ensures |scoreHistory| <= HistoryCap && scoreHistory[|scoreHistory| - 1] == r
    {
      currentScore := 0.7 * currentScore + 0.3 * baseScore;

      var (level, action) := Classify(currentScore);
      var riskFactors := CollectRiskFactors(currentScore, deviceDraw);
      r := TrustScore(currentScore, level, riskFactors, confidence, action, now);

      scoreHistory := scoreHistory + [r];
      if |scoreHistory| > HistoryCap {
        scoreHistory := scoreHistory[1..];
      }

      ConsistentStep(samples, results, old(currentScore), old(scoreHistory), baseScore, r);
      samples := samples + [baseScore];
      results := results + [r];
    }
  }

  /**
   * A fresh tracker serving its first request: the score is 0.7 * 75 +
   * 0.3 * s, the level is MEDIUM or HIGH, and the history holds just this result.
   */
  method FirstRequest(s: real, deviceDraw: real, confidence: real, now: real)
    returns (calculator: TrustCalculator, first: TrustScore)
    requires InBand(s) && 0.0 <= deviceDraw < 1.0 && 0.8 <= confidence <= 0.95
    ensures fresh(calculator) && calculator.Valid()
    ensures first.currentScore == 52.5 + 0.3 * s && first.trustLevel != Low
    ensures calculator.scoreHistory == [first]
  {
    calculator := new TrustCalculator();
    first := calculator.CalculateTrustScore(s, deviceDraw, confidence, now);
  }
}
