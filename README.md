# TrustNet 360° core, modelled in Dafny

TrustNet 360° is a demonstration identity-verification service. Its only
stateful logic lives in two objects of `app.py`, and this project models
both of them:

- **`DBIEngine`**, the challenge registry. It issues liveness challenges of
  four kinds (visual/audio, cognitive/motor, emotional response,
  environmental check). Each kind has its own instruction template. Every
  challenge is filed in a map of active challenges under its id and is
  appended to a history. Validating an id that is not active returns a
  "Challenge not found" failure and changes nothing. Validating an active id
  answers pass or fail from two random draws and then removes the id, so
  each challenge can be used once.
- **`TrustCalculator`**, the running trust score. It starts at 75. Each
  request moves it to `0.7·score + 0.3·sample`, with the sample drawn from
  [70, 90]. The new score is classified HIGH / MEDIUM / LOW at the
  thresholds 85 and 65. A list of risk factors explains the score. The
  result is recorded in a history that keeps the latest 100 entries.

The files:

- `text.dfy`: module `Wrappers` (an `Option` type) and module `Text`. `Text`
  holds the two string operations the challenge id and the instruction
  templates use: Python's `str(n)` for non-negative integers and
  `'-'.join(map(str, ns))`. It also holds readers that the service itself
  never calls, `int(s)` on digits and `s.split(sep)`. They exist only to
  state that a printed id or instruction determines the numbers it was
  built from, through round-trip lemmas. `ParseChallengeId`,
  `KindOfInstruction` and `TypeFromValue` in `challenges.dfy` are readers
  of the same kind.
- `challenges.dfy`: module `Challenges`. It has the challenge kinds and
  records, the id format, the templates, the validation result, and the
  class `DbiEngine`, whose fields `activeChallenges` (a `map`) and
  `challengeHistory` (a `seq`) its two methods update in place. It also has
  a model of runs of many issue/validate requests. The method `Serve`
  answers such a run through the engine's two methods. Lemmas about the
  run model prove that each challenge is single-use.
- `trust.dfy`: module `Trust`. It has the smoothing step, the
  classification, the risk factors, the capped history and the class
  `TrustCalculator`. The ghost field `samples` records the base-score
  samples drawn so far (`random.uniform(70, 90)`). The ghost field
  `results` records every result returned so far. The invariant
  `Consistent` ties the running score and the history to them.

All randomness and every clock reading becomes an explicit parameter, with
a precondition giving the range the service draws it from:

- `random.choice` becomes an index below the list's length;
- `random.randint(a, b)` becomes a number in `a..b`;
- `random.uniform(a, b)` becomes a real in `[a, b]`;
- `random.random()` becomes a real in `[0, 1)`;
- `time.time()` becomes a real, and for the id its whole seconds are taken
  with `Floor`.

The draws of `generate_challenge` are gathered in `Challenges.ChallengeDraws`.
Floating-point numbers are modelled as Dafny `real`s.

## Model

| member | source | states |
|---|---|---|
| `Text.NatToString` | app.py:74 | printing a non-negative integer gives a non-empty string of decimal digits, with a leading `0` only for zero |
| `Text.StringToNatInverse` | app.py:74 | the printed digits determine the number: the digit reader inverts `str` |
| `Text.NatToStringWidth` | app.py:74-77 | numbers drawn from 10..99 print as two digits, and id suffixes drawn from 1000..9999 print as four |
| `Text.JoinNumbers` | app.py:80 | the joined text holds only digits and `-`, and for a non-empty list it neither starts nor ends with `-` |
| `Text.SplitJoinNumbers` | app.py:80 | splitting the `'-'`-joined numbers at `'-'` gives exactly the printed numbers, in order |
| `Text.ParseJoinedNumbers` | app.py:80 | parsing the pieces of the joined numbers gives the original list back |
| `Challenges.TypeFromValue` | app.py:29-33 | a kind is found for a string only when that string is the kind's enum value |
| `Challenges.TypeValueRoundTrip` | app.py:29-33 | every kind is recovered from its enum value, the `challenge_type.value` reported at app.py:128, so no two kinds share a value |
| `Challenges.ChallengeId` | app.py:74 | the id `dbi_<seconds>_<suffix>` splits at `_` into exactly the prefix `dbi`, the printed second and the printed suffix |
| `Challenges.ChallengeIdRoundTrip` | app.py:74 | the id `dbi_<seconds>_<suffix>` can be parsed back into its issuance second and its random suffix |
| `Challenges.ChallengeIdInjective` | app.py:74 | two ids are equal exactly when their seconds and their suffixes are both equal |
| `Challenges.Instruction` | app.py:76-99 | the kind of a challenge can be read back from its instruction, so the four templates never produce the same text |
| `Challenges.VisualAudioInstructionShape` | app.py:76-80 | a visual/audio instruction is the fixed prefix, then 8 characters holding the three drawn numbers separated by `-`, which parse back to those numbers, then `' while looking at the `, the drawn direction and ` corner` |
| `Challenges.ThreeNumbersShape` | app.py:77-80 | three numbers drawn from 10..99 and joined by `-` take 8 characters, with the dashes at positions 2 and 5, and split and parse back to the same three numbers |
| `Challenges.EnvironmentalInstructionShape` | app.py:92-99 | an environmental instruction is one of the three listed actions followed by the suffix " for environmental verification" |
| `Challenges.NewChallenge` | app.py:72-108 | the built challenge has the drawn kind, an id that parses back to the clock's whole seconds and the suffix, the kind's instruction template filled from the draws (so the shape lemmas apply to it), whose kind reads back correctly, a duration in [6, 15], the criteria `{"generated": true}` and the clock's timestamp |
| `Challenges.ValidationOf` | app.py:116-134 | an inactive id gives the not-found result (`valid` false, confidence 0.0, "Challenge not found"); an active id gives `valid` exactly when the pass draw exceeds 0.1, the drawn confidence, the stored challenge's kind value, all three signals true, and anomalies that are empty exactly when valid and otherwise `["Suspicious timing pattern"]` |
| `Challenges.DbiEngine.constructor` | app.py:67-69 | a new engine has no active challenges and an empty history |
| `Challenges.DbiEngine.GenerateChallenge` | app.py:71-112 | returns `NewChallenge` of its draws; afterwards the active map is the old one with that challenge at its id, replacing any entry already there; the history is the old history plus this one challenge at its end; every active challenge stays filed under its own id and present in the history |
| `Challenges.DbiEngine.ValidateChallengeResponse` | app.py:114-139 | answers `ValidationOf` the active map as it was; a challenge found active was filed under that id and recorded in the history; afterwards exactly that id is gone from the active map, every other entry is unchanged, and the history is untouched; for an inactive id nothing changes |
| `Challenges.IssueThenReplay` | app.py:71-139 | on a fresh engine, issuing a challenge and validating its id twice gives a real pass/fail result first, and a not-found result with confidence 0.0 on the replay |
| `Challenges.Serve` | app.py:71-139 | serving a run of issue and validate requests one by one through `GenerateChallenge` and `ValidateChallengeResponse` gives exactly the answers `Answers` predicts, leaves the active map at `Run` of the run, and appends to the history exactly the challenges the run issues (`Issued`), in order |
| `Challenges.ServeOne` | app.py:71-139 | one request served by the method for its kind answers `Answer`, moves the active map by `Step`, and appends the built challenge to the history for an issuance and leaves the history as it was for a validation (`IssuedBy`) |
| `Challenges.AtMostOneValidationPerIssue` | app.py:110-138 | in any run of issue and validate requests, the validations of an id that find it active number at most the times it was issued, plus one if it was active at the start |
| `Challenges.NeverIssuedNeverFound` | app.py:116-117 | an id that is not active and is never issued in a run is never found by any validation in that run |
| `Challenges.RepeatedValidationsOnlyFirstWins` | app.py:116-138 | of n ≥ 1 back-to-back validations of an active id, the first gets a real result and all the others are not found |
| `Challenges.ReplaysNotFound` | app.py:116-138 | validations of an inactive id are all answered not found and leave it inactive |
| `Trust.Smooth` | app.py:199 | the new score lies between the old score and the sample, so it stays in [70, 90] when both are |
| `Trust.ScoreAfter` | app.py:191-199 | starting from 75, after any number of samples drawn from [70, 90], the running score is in [70, 90] |
| `Trust.Classify` | app.py:202-210 | HIGH exactly when score ≥ 85, MEDIUM exactly when 65 ≤ score < 85, LOW exactly when score < 65; the action is ALLOW_SEAMLESS, ALLOW_WITH_MONITORING or REQUIRE_ADDITIONAL_VERIFICATION exactly for those levels; the level and action names are the strings `"HIGH"`/`"ALLOW_SEAMLESS"`, `"MEDIUM"`/`"ALLOW_WITH_MONITORING"` and `"LOW"`/`"REQUIRE_ADDITIONAL_VERIFICATION"` exactly on those ranges |
| `Trust.ClassifyMonotone` | app.py:202-210 | a higher score never gets a lower level |
| `Trust.InBandNeverLow` | app.py:191-210 | the running score never gets the level LOW |
| `Trust.RiskFactors` | app.py:213-220 | the list is never empty; it holds "Behavioral pattern variation detected" exactly when score < 80 and "New device fingerprint" exactly when the device draw is < 0.2; it is `["All metrics within normal range"]` exactly when neither fires, and that entry never appears beside another |
| `Trust.CollectRiskFactors` | app.py:213-220 | building the list by appending, as the service does, gives `RiskFactors` |
| `Trust.Capped` | app.py:231-233 | appending and capping leaves a history of at most 100 entries alone, cuts one of at most 101 entries to at most 100, and always keeps the newest entry last |
| `Trust.Recent` | app.py:231-233 | the retained history is the last min(n, 100) results, oldest first, ending with the newest result |
| `Trust.CappedRecent` | app.py:231-233 | appending one result and then dropping the oldest entry past 100 gives exactly the last 100 results of the longer run |
| `Trust.ConsistentStep` | app.py:198-233 | serving one request keeps the tracker's invariant: the score is the smoothing of all samples, the history is the latest 100 results, the newest result reports the score, and the history holds at most 100 entries |
| `Trust.TrustCalculator.constructor` | app.py:190-192 | a new tracker starts at 75 with an empty history |
| `Trust.TrustCalculator.CalculateTrustScore` | app.py:194-235 | the score becomes `Smooth(old score, sample)` and stays in [70, 90]; the result carries that score, `Classify` of the unrounded score, `RiskFactors`, the drawn confidence and the clock; the history becomes the old history plus the result, capped at 100, and ends with it; the invariant is kept |
| `Trust.FirstRequest` | app.py:190-235 | a fresh tracker's first result has the score 52.5 + 0.3·s, is not LOW, and is the whole history |

## Left out

- The HTML/CSS/JavaScript page (`home()`) and its 80/60 colour thresholds: these are presentation only.
- The FastAPI routes, CORS middleware, `HTTPException` wrapping, JSON parsing of `response_data`, the `demo_stats` counters and the `main`/uvicorn start-up: these are I/O and plumbing.
- `BiometricProcessor`: it only makes independent random draws and loads an OpenCV cascade that is never used, so it has no logic to verify.
- The `except` fallback branches of `calculate_trust_score` and `process_frame`: they are unreachable along the modelled path, because nothing in it raises.
- The unused inputs `user_context`, `response_data` and `behavioral_data`: the code never reads them, so the methods do not take them.
- Trust.TrustCalculator.CalculateTrustScore: the result reports the unrounded score, while the service reports `round(score, 1)`. Python's float rounding (round-half-even on binary doubles) is not modelled. The classification, the risk factors and the running score use the unrounded value in both.
- Floating-point semantics in general: scores, draws and clock readings are exact reals. The 0.7/0.3 weights are exact rationals.
- The probability distributions of the draws. Statistical claims such as "about 90% pass" or "the kinds are equally frequent" are not stated. Only the ranges of the draws are.
- The uniqueness of ids: two challenges issued in the same second with the same four-digit suffix share an id. `ChallengeIdInjective` shows this is the only way two ids can coincide. `GenerateChallenge` then overwrites the earlier active entry, as the service does.
- `validate_challenge_response` is `async`, but it contains no `await`, so it is modelled as a sequential method. Concurrent access is not modelled.
- `setup.py`: it holds packaging metadata and file reading only.
