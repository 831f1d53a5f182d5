/**
 * `scripts/check-triggers.py`: scores a generation's status on four signals
 * and decides whether the agent should hand over to a successor.
 */
module Triggers {
  import opened Wrappers
  import opened Records

  const InteractionLimit: real := 150.0
  const ConfidenceMin: real := 0.70
  const ErrorRateMax: real := 0.15
  const StallMinutes: real := 10.0

  const InteractionsWeight: real := 0.25
  const ConfidenceWeight: real := 0.30
  const ErrorsWeight: real := 0.25
  const StallWeight: real := 0.20

  /** The weighted score above which succession is immediate, and above which it is soon. */
  const ImmediateAbove: real := 0.70
  const SoonAbove: real := 0.50

  /** The four signals, in the order the script's score dict lists them. */
  datatype Signal = Interactions | Confidence | Errors | Stall

  /** The script's urgency strings 'none', 'soon' and 'immediate'. */
  datatype Urgency = NoUrgency | Soon | Immediate

  datatype Scores = Scores(interactions: real, confidence: real, errors: real, stall: real)
  {
    function Of(k: Signal): real
    {
      match k
      case Interactions => interactions
      case Confidence => confidence
      case Errors => errors
      case Stall => stall
    }
  }

  datatype Evaluation = Evaluation(
    shouldHandoff: bool,
    urgency: Urgency,
    weighted: real,
    primary: Signal,
    scores: Scores)

  function Min(a: real, b: real): real
  {
    if a <= b then a else b
  }

  function Max(a: real, b: real): real
  {
    if a >= b then a else b
  }

  function Position(k: Signal): nat
  {
    match k
    case Interactions => 0
    case Confidence => 1
    case Errors => 2
    case Stall => 3
  }

  /** `min(interactions / 150, 1.0)`. */
  function InteractionsScore(interactions: int): real
  {
    Min(interactions as real / InteractionLimit, 1.0)
  }

  /** `max(0, 1 - confidence / 0.70)`. */
  function ConfidenceScore(confidence: real): real
  {
    Max(0.0, 1.0 - confidence / ConfidenceMin)
  }

  /** `min((errors / max(interactions, 1)) / 0.15, 1.0)`. */
  function ErrorsScore(errors: int, interactions: int): real
  {
    var total := if interactions > 1 then interactions else 1;
    Min((errors as real / total as real) / ErrorRateMax, 1.0)
  }

  /**
   * Minutes since `last_updated`, scaled by 10 and capped at 1.  A missing or
   * unparseable timestamp scores 0.  The current UTC reading is given the
   * stamp's own timezone before subtracting, so a stamp with or without an
   * offset is compared by its wall-clock reading.  A future stamp scores below 0.
   */
  function StallScore(lastUpdated: Option<Stamp>, now: int): real
  {
    match lastUpdated
    case Some(Parsed(secs, _)) => Min(((now - secs) as real / 60.0) / StallMinutes, 1.0)
    case _ => 0.0
  }

  function ScoresOf(st: GenStatus, now: int): Scores
  {
    var interactions := st.interactions.GetOr(0);
    Scores(InteractionsScore(interactions),
           ConfidenceScore(st.confidence.GetOr(1.0)),
           ErrorsScore(st.errors.GetOr(0), interactions),
           StallScore(st.lastUpdated, now))
  }

  function Weighted(s: Scores): real
  {
    s.interactions * InteractionsWeight + s.confidence * ConfidenceWeight
    + s.errors * ErrorsWeight + s.stall * StallWeight
  }

  function Classify(weighted: real): Urgency
  {
    if weighted > ImmediateAbove then Immediate
    else if weighted > SoonAbove then Soon
    else NoUrgency
  }

  /**
   * `max(scores, key=scores.get)`: the signal with the largest unweighted
   * score, the earliest one in the dict's order on a tie.
   */
  function Primary(s: Scores): (k: Signal)
    ensures forall j :: s.Of(j) <= s.Of(k)
    ensures forall j :: Position(j) < Position(k) ==> s.Of(j) < s.Of(k)
  {
    var best01 := if s.confidence > s.interactions then Confidence else Interactions;
    var best012 := if s.errors > s.Of(best01) then Errors else best01;
    if s.stall > s.Of(best012) then Stall else best012
  }

  /** `evaluate_triggers(status)` at time `now`. */
  function EvaluateTriggers(st: GenStatus, now: int): (e: Evaluation)
    ensures e.shouldHandoff <==> e.weighted > SoonAbove
    ensures e.urgency == Immediate <==> e.weighted > ImmediateAbove
    ensures e.urgency == NoUrgency <==> !e.shouldHandoff
  {
    var s := ScoresOf(st, now);
    var w := Weighted(s);
    var u := Classify(w);
    Evaluation(u != NoUrgency, u, w, Primary(s), s)
  }

  /** Inputs the working agent is expected to write: no negative counts, a confidence of at least 0, no future timestamp. */
  predicate Plausible(st: GenStatus, now: int)
  {
    st.interactions.GetOr(0) >= 0 && st.errors.GetOr(0) >= 0 && st.confidence.GetOr(1.0) >= 0.0
    && (st.lastUpdated.Some? && st.lastUpdated.value.Parsed? ==> st.lastUpdated.value.secs <= now)
  }

  predicate InUnitRange(s: Scores)
  {
    forall k :: 0.0 <= s.Of(k) <= 1.0
  }

  /** On plausible input every partial score lies in [0, 1], and so does the weighted sum. */
  lemma ScoresInUnitRange(st: GenStatus, now: int)
    requires Plausible(st, now)
    ensures InUnitRange(ScoresOf(st, now))
    ensures 0.0 <= EvaluateTriggers(st, now).weighted <= 1.0
  {
    var s := ScoresOf(st, now);
    var interactions := st.interactions.GetOr(0);
    var total := if interactions > 1 then interactions else 1;
    var errors := st.errors.GetOr(0);
    assert errors as real / total as real >= 0.0;
    assert forall k :: 0.0 <= s.Of(k) <= 1.0 by {
      forall k ensures 0.0 <= s.Of(k) <= 1.0 {
        match k
        case Interactions =>
        case Confidence =>
        case Errors =>
        case Stall =>
      }
    }
  }

  /** How many of the four partial scores are positive. */
  function PositiveCount(s: Scores): nat
  {
    (if s.interactions > 0.0 then 1 else 0) + (if s.confidence > 0.0 then 1 else 0)
    + (if s.errors > 0.0 then 1 else 0) + (if s.stall > 0.0 then 1 else 0)
  }

  /** The sum of the weights of the positive partial scores. */
  function PositiveWeight(s: Scores): real
  {
    (if s.interactions > 0.0 then InteractionsWeight else 0.0) + (if s.confidence > 0.0 then ConfidenceWeight else 0.0)
    + (if s.errors > 0.0 then ErrorsWeight else 0.0) + (if s.stall > 0.0 then StallWeight else 0.0)
  }

  lemma WeightedAtMostPositiveWeight(s: Scores)
    requires InUnitRange(s)
    ensures Weighted(s) <= PositiveWeight(s)
  {
    assert s.Of(Interactions) <= 1.0 && s.Of(Confidence) <= 1.0 && s.Of(Errors) <= 1.0 && s.Of(Stall) <= 1.0;
    assert s.Of(Interactions) >= 0.0 && s.Of(Confidence) >= 0.0 && s.Of(Errors) >= 0.0 && s.Of(Stall) >= 0.0;
  }

  /** No single signal can cause a succession: a handoff needs at least two positive partial scores. */
  lemma HandoffNeedsTwoSignals(st: GenStatus, now: int)
    requires Plausible(st, now)
    requires EvaluateTriggers(st, now).shouldHandoff
    ensures PositiveCount(ScoresOf(st, now)) >= 2
  {
    ScoresInUnitRange(st, now);
    WeightedAtMostPositiveWeight(ScoresOf(st, now));
  }

  /** Immediate succession needs at least three positive partial scores: no two weights reach 0.70. */
  lemma ImmediateNeedsThreeSignals(st: GenStatus, now: int)
    requires Plausible(st, now)
    requires EvaluateTriggers(st, now).urgency == Immediate
    ensures PositiveCount(ScoresOf(st, now)) >= 3
  {
    ScoresInUnitRange(st, now);
    WeightedAtMostPositiveWeight(ScoresOf(st, now));
  }

  /** Raising the weighted score never lowers the urgency. */
  lemma ClassifyMonotone(a: real, b: real)
    requires a <= b
    ensures Classify(a) == Immediate ==> Classify(b) == Immediate
    ensures Classify(a) != NoUrgency ==> Classify(b) != NoUrgency
  {
  }

  /**
   * A confidence of 0 alone contributes its full weight of 0.30, and a
   * confidence at or above 0.70 contributes nothing.
   */
  lemma ConfidenceContribution(c: real)
    ensures c == 0.0 ==> ConfidenceScore(c) * ConfidenceWeight == 0.30
    ensures c >= ConfidenceMin ==> ConfidenceScore(c) == 0.0
    ensures 0.0 <= c < ConfidenceMin ==> 0.0 < ConfidenceScore(c) <= 1.0
  {
  }

  /** A fresh status (no interactions, no errors, full confidence, no timestamp) scores 0 and stays put. */
  lemma FreshStatusStaysPut(now: int)
    ensures EvaluateTriggers(EmptyStatus, now).weighted == 0.0
    ensures EvaluateTriggers(EmptyStatus, now).urgency == NoUrgency
    ensures !EvaluateTriggers(EmptyStatus, now).shouldHandoff
  {
  }

  /**
   * Past the interaction limit, at the confidence cut-off and with two
   * errors, a generation still scores only 0.25 + 1/48 and is not handed off.
   */
  lemma BusyGenerationStaysPut(now: int)
    ensures var st := EmptyStatus.(interactions := Some(160), confidence := Some(0.70), errors := Some(2));
            EvaluateTriggers(st, now).weighted == 0.25 + 1.0 / 48.0
            && EvaluateTriggers(st, now).urgency == NoUrgency
  {
  }

  /**
   * The script's exit code for a generation status: 3 when it cannot be read
   * or is `{}`, 2 immediate or finished badly, 1 soon, 0 otherwise.
   */
  function ExitCode(doc: Option<GenStatus>, now: int): (code: int)
    ensures 0 <= code <= 3
    ensures code == 3 <==> !StatusRead(doc)
    ensures StatusRead(doc) && doc.value.status.Some? && doc.value.status.value in {"completed", "failed", "needs_succession"}
            ==> code == (if doc.value.status == Some("completed") then 0 else 2)
    ensures StatusRead(doc) && !(doc.value.status.Some? && doc.value.status.value in {"completed", "failed", "needs_succession"})
            ==> (code != 0 <==> EvaluateTriggers(doc.value, now).shouldHandoff)
    ensures StatusRead(doc) && !(doc.value.status.Some? && doc.value.status.value in {"completed", "failed", "needs_succession"})
            ==> (code == 2 <==> EvaluateTriggers(doc.value, now).urgency == Immediate)
                && (code == 1 <==> EvaluateTriggers(doc.value, now).urgency == Soon)
  {
    if !StatusRead(doc) then 3
    else
      var st := doc.value;
      if st.status.Some? && st.status.value in {"completed", "failed", "needs_succession"} then
        (if st.status == Some("completed") then 0 else 2)
      else
        match EvaluateTriggers(st, now).urgency
        case Immediate => 2
        case Soon => 1
        case NoUrgency => 0
  }

  /** The generation `main` checks: the one named on the command line, else the state's `current_generation` (default 1). */
  function ChosenGeneration(argGeneration: Option<int>, state: Option<ProjectState>): int
  {
    if argGeneration.Some? then argGeneration.value
    else if StateRead(state) then state.value.currentGeneration.GetOr(1) else 1
  }

  /**
   * `main`: the exit code for the status file of the chosen generation; 3
   * exactly when that file is missing or holds `{}`.
   */
  function CheckTriggersMain(argGeneration: Option<int>, state: Option<ProjectState>,
                             statuses: map<int, GenStatus>, now: int): (code: int)
    ensures var g := ChosenGeneration(argGeneration, state);
            && (code == 3 <==> g !in statuses || !StatusHasKeys(statuses[g]))
            && (code != 3 ==> code == ExitCode(Some(statuses[g]), now))
    ensures argGeneration.None? && !StateRead(state) ==> code == ExitCode(if 1 in statuses then Some(statuses[1]) else None, now)
  {
    var g := ChosenGeneration(argGeneration, state);
    ExitCode(if g in statuses then Some(statuses[g]) else None, now)
  }
}
