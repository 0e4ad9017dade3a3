/**
 * The Dynamic Biometric Interrogation engine: it issues single-use
 * liveness challenges of four kinds and validates (and thereby consumes)
 * a response to one of them.
 *
 * Every random draw and clock reading of the service is a parameter here,
 * constrained to the range the service draws it from.
 */
module Challenges {
  import opened Wrappers
  import opened Text

  datatype ChallengeType = VisualAudio | CognitiveMotor | EmotionalResponse | EnvironmentalCheck

  /** The enumeration in declaration order, as `list(ChallengeType)` yields it. */
  const Kinds: seq<ChallengeType> := [VisualAudio, CognitiveMotor, EmotionalResponse, EnvironmentalCheck]

  /** The `.value` string of each kind. */
  function TypeValue(t: ChallengeType): string {
    match t
    case VisualAudio => "visual_audio"
    case CognitiveMotor => "cognitive_motor"
    case EmotionalResponse => "emotional_response"
    case EnvironmentalCheck => "environmental_check"
  }

  /** `ChallengeType(s)`: the kind whose value is s, if any. */
  function TypeFromValue(s: string): (r: Option<ChallengeType>)
    ensures r.Some? ==> TypeValue(r.value) == s
  {
    if s == "visual_audio" then Some(VisualAudio)
    else if s == "cognitive_motor" then Some(CognitiveMotor)
    else if s == "emotional_response" then Some(EmotionalResponse)
    else if s == "environmental_check" then Some(EnvironmentalCheck)
    else None
  }

  /** Every kind is recovered from its value, so no two kinds share one. */
  lemma TypeValueRoundTrip(t: ChallengeType)
    ensures TypeFromValue(TypeValue(t)) == Some(t)
    ensures forall u :: TypeValue(u) == TypeValue(t) ==> u == t
  {
  }

  datatype Challenge = Challenge(
    id: string,
    kind: ChallengeType,
    instruction: string,
    expectedDuration: real,
    validationCriteria: map<string, bool>,
    timestamp: real)

  // ---------------------------------------------------------------- ids

  const IdPrefix: string := "dbi"

  /** `f"dbi_{seconds}_{suffix}"`: split at `_` it gives the prefix, the printed second and the printed suffix. */
  function ChallengeId(seconds: nat, suffix: nat): (id: string)
    ensures Split(id, '_') == [IdPrefix, NatToString(seconds), NatToString(suffix)]
  {
    var a, b := NatToString(seconds), NatToString(suffix);
    assert '_' !in a && '_' !in b;
    SplitThree(IdPrefix, '_', a, b);
    IdPrefix + "_" + (a + "_" + b)
  }

  /** Three separator-free pieces joined by the separator split back into those pieces. */
  lemma SplitThree(p: string, sep: char, a: string, b: string)
    requires sep !in p && sep !in a && sep !in b
    ensures Split(p + [sep] + (a + [sep] + b), sep) == [p, a, b]
  {
    SplitCons(p, sep, a + [sep] + b);
    SplitCons(a, sep, b);
    SplitNoSeparator(b, sep);
  }

  /** Reads the issuance second and the random suffix back out of an id. */
  function ParseChallengeId(id: string): Option<(nat, nat)> {
    var parts := Split(id, '_');
    if |parts| != 3 || parts[0] != IdPrefix then None
    else if |parts[1]| == 0 || !AllDigits(parts[1]) || |parts[2]| == 0 || !AllDigits(parts[2]) then None
    else Some((StringToNat(parts[1]), StringToNat(parts[2])))
  }

  lemma ChallengeIdRoundTrip(seconds: nat, suffix: nat)
    ensures ParseChallengeId(ChallengeId(seconds, suffix)) == Some((seconds, suffix))
  {
    StringToNatInverse(seconds);
    StringToNatInverse(suffix);
  }

  /** Two ids coincide only when both the second and the suffix do. */
  lemma ChallengeIdInjective(s1: nat, k1: nat, s2: nat, k2: nat)
    ensures ChallengeId(s1, k1) == ChallengeId(s2, k2) <==> s1 == s2 && k1 == k2
  {
    ChallengeIdRoundTrip(s1, k1);
    ChallengeIdRoundTrip(s2, k2);
  }

  // ---------------------------------------------------------- instructions

  const Directions: seq<string> := ["top-left", "top-right", "bottom-left", "bottom-right"]
  const Phrases: seq<string> := ["Bank of Baroda", "TrustNet 360", "Secure Banking"]
  const Gestures: seq<string> := ["touch your nose", "raise your right hand", "nod twice"]
  const EnvironmentalActions: seq<string> := [
    "Turn your head slowly left and right",
    "Move slightly closer to the camera",
    "Ensure good lighting on your face"]

  const SayPrefix: string := "Say the numbers '"
  const LookInfix: string := "' while looking at the "
  const CornerSuffix: string := " corner"
  const TypePrefix: string := "Type '"
  const ThenInfix: string := "' then "
  // Written as two literals: the verifier reads the characters of a short literal, not of a long one.
  const EmotionalInstruction: string := "Look naturally at the screen. " + "A surprise image will appear briefly."
  const EnvironmentalSuffix: string := " for environmental verification"

  /**
   * The random draws that `generate_challenge` makes: the kind, the id
   * suffix, and the parameters for every template (only those of the
   * chosen kind are used), and the expected duration.
   */
  datatype ChallengeDraws = ChallengeDraws(
    kindIndex: nat,
    idSuffix: nat,
    numbers: seq<nat>,
    directionIndex: nat,
    phraseIndex: nat,
    gestureIndex: nat,
    actionIndex: nat,
    expectedDuration: real)

  /** The ranges of `random.choice`, `random.randint` and `random.uniform` in `generate_challenge`. */
  predicate DrawsInRange(d: ChallengeDraws) {
    && d.kindIndex < |Kinds|
    && 1000 <= d.idSuffix <= 9999
    && (Kinds[d.kindIndex] == VisualAudio ==>
          |d.numbers| == 3 && (forall i :: 0 <= i < 3 ==> 10 <= d.numbers[i] <= 99)
          && d.directionIndex < |Directions|)
    && (Kinds[d.kindIndex] == CognitiveMotor ==>
          d.phraseIndex < |Phrases| && d.gestureIndex < |Gestures|)
    && (Kinds[d.kindIndex] == EnvironmentalCheck ==> d.actionIndex < |EnvironmentalActions|)
    && 6.0 <= d.expectedDuration <= 15.0
  }

  /** Tells the kind of a challenge from its instruction text alone. */
  function KindOfInstruction(s: string): ChallengeType {
    if |s| >= |SayPrefix| && s[..|SayPrefix|] == SayPrefix then VisualAudio
    else if |s| >= |TypePrefix| && s[..|TypePrefix|] == TypePrefix then CognitiveMotor
    else if s == EmotionalInstruction then EmotionalResponse
    else EnvironmentalCheck
  }

  /**
   * The kind-specific instruction template. The four templates are told
   * apart by their text: the kind can be read back from the instruction.
   */
  function Instruction(kind: ChallengeType, d: ChallengeDraws): (s: string)
    requires DrawsInRange(d) && kind == Kinds[d.kindIndex]
    ensures KindOfInstruction(s) == kind
  {
    match kind
    case VisualAudio =>
      var s := SayPrefix + JoinNumbers(d.numbers, '-') + LookInfix + Directions[d.directionIndex] + CornerSuffix;
      assert s[..|SayPrefix|] == SayPrefix;
      s
    case CognitiveMotor =>
      var s := TypePrefix + Phrases[d.phraseIndex] + ThenInfix + Gestures[d.gestureIndex];
      assert s[..|TypePrefix|] == TypePrefix;
      assert s[0] != SayPrefix[0];
      s
    case EmotionalResponse =>
      assert EmotionalInstruction[0] == 'L' && SayPrefix[0] == 'S' && TypePrefix[0] == 'T';
      EmotionalInstruction
    case EnvironmentalCheck =>
      var a := EnvironmentalActions[d.actionIndex];
      var s := a + EnvironmentalSuffix;
      assert s[0] == a[0] && s[1] == a[1];
      assert EmotionalInstruction[0] == 'L';
      assert d.actionIndex == 0 || d.actionIndex == 1 || d.actionIndex == 2;
      assert a[0] != SayPrefix[0] && a[1] != TypePrefix[1] && a[0] != 'L';
      s
  }

  /**
   * A visual/audio instruction is the fixed prefix, the three numbers
   * (each two digits, 10..99) written between dashes in the 8 characters
   * after it, and one of the four corner directions.
   */
  lemma VisualAudioInstructionShape(d: ChallengeDraws)
    requires DrawsInRange(d) && Kinds[d.kindIndex] == VisualAudio
    ensures var s := Instruction(VisualAudio, d);
      && var n := |SayPrefix|;
      && |s| > n + 8
      && s[..n] == SayPrefix
      && s[n + 2] == '-' && s[n + 5] == '-'
      && ParseNumbers(Split(s[n..n + 8], '-')) == Some(d.numbers)
      && s[n + 8..] == LookInfix + Directions[d.directionIndex] + CornerSuffix
  {
    var j := JoinNumbers(d.numbers, '-');
    ThreeNumbersShape(d.numbers);
    var s := Instruction(VisualAudio, d);
    var n := |SayPrefix|;
    assert s == SayPrefix + j + (LookInfix + Directions[d.directionIndex] + CornerSuffix);
    assert s[n..n + 8] == j;
  }

  /** Three two-digit numbers joined by dashes take 8 characters, with the dashes at 2 and 5, and parse back. */
  lemma ThreeNumbersShape(ns: seq<nat>)
    requires |ns| == 3 && forall i :: 0 <= i < 3 ==> 10 <= ns[i] <= 99
    ensures var j := JoinNumbers(ns, '-');
      |j| == 8 && j[2] == '-' && j[5] == '-' && ParseNumbers(Split(j, '-')) == Some(ns)
  {
    NatToStringWidth(ns[0]);
    NatToStringWidth(ns[1]);
    NatToStringWidth(ns[2]);
    assert ns[1..][1..] == [ns[2]];
    assert JoinNumbers(ns[1..], '-') == NatToString(ns[1]) + "-" + NatToString(ns[2]);
    assert JoinNumbers(ns, '-') == NatToString(ns[0]) + "-" + JoinNumbers(ns[1..], '-');
    ParseJoinedNumbers(ns, '-');
  }

  /** An environmental instruction is one of the three listed actions followed by the fixed suffix. */
  lemma EnvironmentalInstructionShape(d: ChallengeDraws)
    requires DrawsInRange(d) && Kinds[d.kindIndex] == EnvironmentalCheck
    ensures var s := Instruction(EnvironmentalCheck, d);
      && |s| > |EnvironmentalSuffix|
      && s[|s| - |EnvironmentalSuffix|..] == EnvironmentalSuffix
      && s[..|s| - |EnvironmentalSuffix|] in EnvironmentalActions
  {
    var a := EnvironmentalActions[d.actionIndex];
    var s := a + EnvironmentalSuffix;
    assert Instruction(EnvironmentalCheck, d) == s;
    assert |s| - |EnvironmentalSuffix| == |a|;
    assert s[..|a|] == a && s[|a|..] == EnvironmentalSuffix;
    assert a in EnvironmentalActions;
  }

  /**
   * The challenge `generate_challenge` builds from its draws: the id from
   * the whole seconds of the first clock reading and the suffix, the
   * second clock reading as its timestamp.
   */
  function NewChallenge(d: ChallengeDraws, idClock: real, now: real): (c: Challenge)
    requires DrawsInRange(d) && idClock >= 0.0
    ensures c.kind == Kinds[d.kindIndex] && c.kind in Kinds
    ensures c.id == ChallengeId(idClock.Floor, d.idSuffix)
    ensures ParseChallengeId(c.id) == Some((idClock.Floor as nat, d.idSuffix))
    ensures c.instruction == Instruction(c.kind, d) && KindOfInstruction(c.instruction) == c.kind
    ensures 6.0 <= c.expectedDuration <= 15.0
    ensures c.validationCriteria == map["generated" := true] && c.timestamp == now
  {
    ChallengeIdRoundTrip(idClock.Floor, d.idSuffix);
    var kind := Kinds[d.kindIndex];
    Challenge(
      ChallengeId(idClock.Floor, d.idSuffix),
      kind,
      Instruction(kind, d),
      d.expectedDuration,
      map["generated" := true],
      now)
  }

  // ------------------------------------------------------------ validation

  datatype BiometricSignals = BiometricSignals(voiceDetected: bool, faceMovement: bool, timingNatural: bool)

  /** The two shapes of the result dictionary of `validate_challenge_response`. */
  datatype ValidationResult =
    | NotFound(valid: bool, error: string, confidence: real)
    | Checked(valid: bool, confidence: real, challengeType: string,
              biometricSignals: BiometricSignals, anomalies: seq<string>)

  const NotFoundError: string := "Challenge not found"
  const TimingAnomaly: string := "Suspicious timing pattern"

  /** What validating `id` against the active challenges `active` answers. */
  function ValidationOf(active: map<string, Challenge>, id: string, confidence: real, passDraw: real): (r: ValidationResult)
    ensures id !in active <==> r.NotFound?
    ensures id !in active ==> !r.valid && r.confidence == 0.0 && r.error == NotFoundError
    ensures id in active ==>
      && (r.valid <==> passDraw > 0.1)
      && r.confidence == confidence
      && TypeFromValue(r.challengeType) == Some(active[id].kind)
      && (r.anomalies == [] <==> r.valid)
      && (!r.valid ==> r.anomalies == [TimingAnomaly])
      && r.biometricSignals == BiometricSignals(true, true, true)
  {
    if id !in active then NotFound(false, NotFoundError, 0.0)
    else
      var valid := passDraw > 0.1;
      Checked(valid, confidence, TypeValue(active[id].kind),
              BiometricSignals(true, true, true),
              if valid then [] else [TimingAnomaly])
  }

  // ------------------------------------------------------------ the engine

  class DbiEngine {
    var activeChallenges: map<string, Challenge>
    var challengeHistory: seq<Challenge>

    /** Every active challenge is filed under its own id and has been recorded in the history. */
    ghost predicate Valid()
      reads this
    {
      forall id :: id in activeChallenges ==>
        activeChallenges[id].id == id && activeChallenges[id] in challengeHistory
    }

    constructor ()
      ensures Valid()
      ensures activeChallenges == map[] && challengeHistory == []
    {
      activeChallenges := map[];
      challengeHistory := [];
    }

    /** `generate_challenge`: build a challenge, make it active under its id and log it. */
    method GenerateChallenge(d: ChallengeDraws, idClock: real, now: real) returns (c: Challenge)
      requires Valid()
      requires DrawsInRange(d) && idClock >= 0.0
      modifies this
      ensures Valid()
      ensures c == NewChallenge(d, idClock, now)
      ensures activeChallenges == old(activeChallenges)[c.id := c]
      ensures challengeHistory == old(challengeHistory) + [c]
    {
      var kind := Kinds[d.kindIndex];
      var instruction: string;
      if kind == VisualAudio {
        instruction := SayPrefix + JoinNumbers(d.numbers, '-') + LookInfix
          + Directions[d.directionIndex] + CornerSuffix;
      } else if kind == CognitiveMotor {
        instruction := TypePrefix + Phrases[d.phraseIndex] + ThenInfix + Gestures[d.gestureIndex];
      } else if kind == EmotionalResponse {
        instruction := EmotionalInstruction;
      } else {
        instruction := EnvironmentalActions[d.actionIndex] + EnvironmentalSuffix;
      }
      var id := ChallengeId(idClock.Floor, d.idSuffix);
      c := Challenge(id, kind, instruction, d.expectedDuration, map["generated" := true], now);
      activeChallenges := activeChallenges[id := c];
      challengeHistory := challengeHistory + [c];
    }

    /**
     * `validate_challenge_response`: an unknown id is answered with the
     * not-found result and changes nothing; a known id is answered from
     * the two draws and is removed whatever the outcome.
     */
    method ValidateChallengeResponse(id: string, confidence: real, passDraw: real) returns (r: ValidationResult)
      requires Valid()
      requires 0.8 <= confidence <= 0.95 && 0.0 <= passDraw < 1.0
      modifies this
      ensures Valid()
      ensures r == ValidationOf(old(activeChallenges), id, confidence, passDraw)
      ensures id in old(activeChallenges) ==>
        old(activeChallenges)[id].id == id && old(activeChallenges)[id] in challengeHistory
      ensures activeChallenges == old(activeChallenges) - {id}
      ensures id !in old(activeChallenges) ==> activeChallenges == old(activeChallenges)
      ensures challengeHistory == old(challengeHistory)
    {
      if id !in activeChallenges {
        return NotFound(false, NotFoundError, 0.0);
      }
      var challenge := activeChallenges[id];
      var valid := passDraw > 0.1;
      var anomalies := if valid then [] else [TimingAnomaly];
      r := Checked(valid, confidence, TypeValue(challenge.kind),
                   BiometricSignals(true, true, true), anomalies);
      activeChallenges := activeChallenges - {id};
    }
  }

  /**
   * Issue a challenge on a fresh engine and validate its id twice: the
   * first answer is a real pass/fail result, the replay is not found.
   */
  method IssueThenReplay(d: ChallengeDraws, idClock: real, now: real,
                         confidence1: real, pass1: real, confidence2: real, pass2: real)
    returns (first: ValidationResult, second: ValidationResult)
    requires DrawsInRange(d) && idClock >= 0.0
    requires 0.8 <= confidence1 <= 0.95 && 0.0 <= pass1 < 1.0
    requires 0.8 <= confidence2 <= 0.95 && 0.0 <= pass2 < 1.0
    ensures first.Checked? && (first.valid <==> pass1 > 0.1) && first.confidence == confidence1
    ensures second.NotFound? && !second.valid && second.confidence == 0.0
  {
    var engine := new DbiEngine();
    var c := engine.GenerateChallenge(d, idClock, now);
    first := engine.ValidateChallengeResponse(c.id, confidence1, pass1);
    second := engine.ValidateChallengeResponse(c.id, confidence2, pass2);
  }

  // ----------------------------------------------- runs of many requests

  /** One call on the engine: an issuance with its draws and clock readings, or a validation with its draws. */
  datatype Request =
    | Issue(draws: ChallengeDraws, idClock: real, now: real)
    | Validate(id: string, confidence: real, passDraw: real)

  /** The ranges the service draws a request's random values and clock readings from. */
  predicate RequestInRange(req: Request) {
    match req
    case Issue(d, idClock, _) => DrawsInRange(d) && idClock >= 0.0
    case Validate(_, confidence, passDraw) => 0.8 <= confidence <= 0.95 && 0.0 <= passDraw < 1.0
  }

  predicate AllInRange(reqs: seq<Request>) {
    forall k :: 0 <= k < |reqs| ==> RequestInRange(reqs[k])
  }

  /** The id an issuance files its challenge under. */
  function IssuedId(req: Request): string
    requires req.Issue? && req.idClock >= 0.0
  {
    ChallengeId(req.idClock.Floor, req.draws.idSuffix)
  }

  /** The active map after one request, as the two methods leave it. */
  function Step(active: map<string, Challenge>, req: Request): map<string, Challenge>
    requires RequestInRange(req)
  {
    match req
    case Issue(d, idClock, now) =>
      var c := NewChallenge(d, idClock, now);
      active[c.id := c]
    case Validate(id, _, _) => active - {id}
  }

  /** The active map after a run of requests. */
  function Run(active: map<string, Challenge>, reqs: seq<Request>): map<string, Challenge>
    requires AllInRange(reqs)
    decreases |reqs|
  {
    if |reqs| == 0 then active
    else Run(Step(active, reqs[0]), reqs[1..])
  }

  /** What one request is answered: nothing for an issuance, the validation result for a validation. */
  function Answer(active: map<string, Challenge>, req: Request): seq<ValidationResult> {
    match req
    case Issue(_, _, _) => []
    case Validate(id, conf, pass) => [ValidationOf(active, id, conf, pass)]
  }

  /** The answers a run of requests receives, starting from `active`: one per validation. */
  function Answers(active: map<string, Challenge>, reqs: seq<Request>): seq<ValidationResult>
    requires AllInRange(reqs)
    decreases |reqs|
  {
    if |reqs| == 0 then []
    else Answer(active, reqs[0]) + Answers(Step(active, reqs[0]), reqs[1..])
  }

  /** How many validations of `id` in the run find it active. */
  function FoundCount(active: map<string, Challenge>, reqs: seq<Request>, id: string): nat
    requires AllInRange(reqs)
    decreases |reqs|
  {
    if |reqs| == 0 then 0
    else
      (if reqs[0].Validate? && reqs[0].id == id && id in active then 1 else 0)
      + FoundCount(Step(active, reqs[0]), reqs[1..], id)
  }

  /** How many issuances in the run are filed under `id`. */
  function IssueCount(reqs: seq<Request>, id: string): nat
    requires AllInRange(reqs)
  {
    if |reqs| == 0 then 0
    else (if reqs[0].Issue? && IssuedId(reqs[0]) == id then 1 else 0) + IssueCount(reqs[1..], id)
  }

  /** The challenge one request adds to the history: the built one for an issuance, none for a validation. */
  function IssuedBy(req: Request): seq<Challenge>
    requires RequestInRange(req)
  {
    match req
    case Issue(d, idClock, now) => [NewChallenge(d, idClock, now)]
    case Validate(_, _, _) => []
  }

  /** The challenges a run of requests adds to the history, in issue order. */
  function Issued(reqs: seq<Request>): seq<Challenge>
    requires AllInRange(reqs)
    decreases |reqs|
  {
    if |reqs| == 0 then []
    else IssuedBy(reqs[0]) + Issued(reqs[1..])
  }

  /**
   * `Serve`: the engine answering a run of requests one after another, each
   * through `generate_challenge` or `validate_challenge_response`. It gives
   * the answers of `Answers`, leaves the active map at `Run` and appends
   * the issued challenges to the history in order.
   */
  method Serve(engine: DbiEngine, reqs: seq<Request>) returns (rs: seq<ValidationResult>)
    requires engine.Valid() && AllInRange(reqs)
    modifies engine
    ensures engine.Valid()
    ensures rs == Answers(old(engine.activeChallenges), reqs)
    ensures engine.activeChallenges == Run(old(engine.activeChallenges), reqs)
    ensures engine.challengeHistory == old(engine.challengeHistory) + Issued(reqs)
  {
    ghost var active0, history0 := engine.activeChallenges, engine.challengeHistory;
    rs := [];
    var i := 0;
    ServedStart(active0, history0, reqs);
    while i < |reqs|
      invariant 0 <= i <= |reqs| && engine.Valid()
      invariant Served(active0, history0, reqs, i, rs, engine.activeChallenges, engine.challengeHistory)
    {
      ghost var active, history := engine.activeChallenges, engine.challengeHistory;
      assert RequestInRange(reqs[i]);
      var answer := ServeOne(engine, reqs[i]);
      ServedStep(active0, history0, reqs, i, rs, active, history, answer);
      rs := rs + answer;
      i := i + 1;
    }
    ServedDone(active0, history0, reqs, rs, engine.activeChallenges, engine.challengeHistory);
  }

  /**
   * The first i requests of a run have been served: the answers so far and
   * the rest of the run give the whole run's answers, and likewise for the
   * active map and the history.
   */
  ghost predicate Served(active0: map<string, Challenge>, history0: seq<Challenge>, reqs: seq<Request>, i: nat,
                         rs: seq<ValidationResult>, active: map<string, Challenge>, history: seq<Challenge>)
  {
    && i <= |reqs| && AllInRange(reqs) && AllInRange(reqs[i..])
    && Answers(active0, reqs) == rs + Answers(active, reqs[i..])
    && Run(active0, reqs) == Run(active, reqs[i..])
    && history0 + Issued(reqs) == history + Issued(reqs[i..])
  }

  lemma ServedStart(active0: map<string, Challenge>, history0: seq<Challenge>, reqs: seq<Request>)
    requires AllInRange(reqs)
    ensures Served(active0, history0, reqs, 0, [], active0, history0)
  {
    assert reqs[0..] == reqs;
  }

  /** Serving request i moves the served prefix on by one. */
  lemma ServedStep(active0: map<string, Challenge>, history0: seq<Challenge>, reqs: seq<Request>, i: nat,
                   rs: seq<ValidationResult>, active: map<string, Challenge>, history: seq<Challenge>,
                   answer: seq<ValidationResult>)
    requires i < |reqs| && Served(active0, history0, reqs, i, rs, active, history)
    requires RequestInRange(reqs[i]) && answer == Answer(active, reqs[i])
    ensures Served(active0, history0, reqs, i + 1, rs + answer, Step(active, reqs[i]), history + IssuedBy(reqs[i]))
  {
    var active' := Step(active, reqs[i]);
    RunUnfold(active, reqs, i);
    var later := Answers(active', reqs[i + 1..]);
    assert rs + (answer + later) == (rs + answer) + later;
    var issuedLater := Issued(reqs[i + 1..]);
    assert history + (IssuedBy(reqs[i]) + issuedLater) == (history + IssuedBy(reqs[i])) + issuedLater;
  }

  lemma ServedDone(active0: map<string, Challenge>, history0: seq<Challenge>, reqs: seq<Request>,
                   rs: seq<ValidationResult>, active: map<string, Challenge>, history: seq<Challenge>)
    requires Served(active0, history0, reqs, |reqs|, rs, active, history)
    ensures rs == Answers(active0, reqs) && active == Run(active0, reqs) && history == history0 + Issued(reqs)
  {
    assert reqs[|reqs|..] == [];
  }

  /** One request handed to the method that serves it. */
  method ServeOne(engine: DbiEngine, req: Request) returns (answer: seq<ValidationResult>)
    requires engine.Valid() && RequestInRange(req)
    modifies engine
    ensures engine.Valid()
    ensures answer == Answer(old(engine.activeChallenges), req)
    ensures engine.activeChallenges == Step(old(engine.activeChallenges), req)
    ensures engine.challengeHistory == old(engine.challengeHistory) + IssuedBy(req)
  {
    match req {
      case Issue(d, idClock, now) =>
        var _ := engine.GenerateChallenge(d, idClock, now);
        answer := [];
      case Validate(id, confidence, passDraw) =>
        var r := engine.ValidateChallengeResponse(id, confidence, passDraw);
        answer := [r];
    }
  }

  /** Serving request i of a run: one step of `Run`, of `Answers` and of `Issued`. */
  lemma RunUnfold(active: map<string, Challenge>, reqs: seq<Request>, i: nat)
    requires i < |reqs| && AllInRange(reqs[i..])
    ensures RequestInRange(reqs[i]) && AllInRange(reqs[i + 1..])
    ensures Run(active, reqs[i..]) == Run(Step(active, reqs[i]), reqs[i + 1..])
    ensures Answers(active, reqs[i..]) == Answer(active, reqs[i]) + Answers(Step(active, reqs[i]), reqs[i + 1..])
    ensures Issued(reqs[i..]) == IssuedBy(reqs[i]) + Issued(reqs[i + 1..])
  {
    var rest := reqs[i..];
    assert rest[0] == reqs[i] && rest[1..] == reqs[i + 1..];
    assert RequestInRange(rest[0]);
  }

  /**
   * Single use: over any run, validations of an id find it at most once
   * per time it was issued (plus once if it was active at the start).
   */
  lemma {:induction false} AtMostOneValidationPerIssue(active: map<string, Challenge>, reqs: seq<Request>, id: string)
    requires AllInRange(reqs)
    ensures FoundCount(active, reqs, id) <= (if id in active then 1 else 0) + IssueCount(reqs, id)
    decreases |reqs|
  {
    if |reqs| > 0 {
      assert RequestInRange(reqs[0]);
      AtMostOneValidationPerIssue(Step(active, reqs[0]), reqs[1..], id);
    }
  }

  /** An id that is not active and is never issued is never found: every validation of it is not found. */
  lemma {:induction false} NeverIssuedNeverFound(active: map<string, Challenge>, reqs: seq<Request>, id: string)
    requires id !in active && AllInRange(reqs)
    requires forall k :: 0 <= k < |reqs| && reqs[k].Issue? ==> IssuedId(reqs[k]) != id
    ensures FoundCount(active, reqs, id) == 0
  {
    AtMostOneValidationPerIssue(active, reqs, id);
    assert IssueCount(reqs, id) == 0 by { NoIssueCount(reqs, id); }
  }

  lemma {:induction false} NoIssueCount(reqs: seq<Request>, id: string)
    requires AllInRange(reqs)
    requires forall k :: 0 <= k < |reqs| && reqs[k].Issue? ==> IssuedId(reqs[k]) != id
    ensures IssueCount(reqs, id) == 0
  {
    if |reqs| > 0 {
      NoIssueCount(reqs[1..], id);
    }
  }

  /** n validation requests of one id, with their own draws. */
  predicate AllValidate(reqs: seq<Request>, id: string) {
    forall k :: 0 <= k < |reqs| ==> reqs[k].Validate? && reqs[k].id == id
  }

  /**
   * Of n >= 1 back-to-back validations of an active id, the first is a
   * real result and every later one is not found.
   */
  lemma {:induction false} RepeatedValidationsOnlyFirstWins(active: map<string, Challenge>, reqs: seq<Request>, id: string)
    requires id in active && |reqs| >= 1 && AllValidate(reqs, id) && AllInRange(reqs)
    ensures |Answers(active, reqs)| == |reqs|
    ensures Answers(active, reqs)[0].Checked?
    ensures forall k :: 1 <= k < |reqs| ==> Answers(active, reqs)[k].NotFound?
    ensures FoundCount(active, reqs, id) == 1
  {
    var after := active - {id};
    assert Step(active, reqs[0]) == after;
    ReplaysNotFound(after, reqs[1..], id);
  }

  lemma {:induction false} ReplaysNotFound(active: map<string, Challenge>, reqs: seq<Request>, id: string)
    requires id !in active && AllValidate(reqs, id) && AllInRange(reqs)
    ensures |Answers(active, reqs)| == |reqs|
    ensures forall k :: 0 <= k < |reqs| ==> Answers(active, reqs)[k].NotFound?
    ensures FoundCount(active, reqs, id) == 0
  {
    if |reqs| > 0 {
      assert Step(active, reqs[0]) == active;
      ReplaysNotFound(active, reqs[1..], id);
    }
  }
}
