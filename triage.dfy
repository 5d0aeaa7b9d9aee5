/**
 * `predict_ticket` (app.py:60-96): the type -> priority -> queue cascade over
 * three classifiers, and the confidence-gated choice of one of five actions.
 * Each classifier is a function from its feature record to a predicted class name
 * with its confidence (the largest class probability).
 */
module Triage {
  import opened Wrappers
  import TextClean

  /** What one classifier returns: `predict(...)[0]` and `predict_proba(...)[0].max()`. */
  datatype Prediction = Prediction(name: string, confidence: real)

  /** Feature columns of each stage, in the order the source selects them. */
  datatype TypeFeatures = TypeFeatures(text: string, queue: string, priority: string)
  datatype PriorityFeatures = PriorityFeatures(text: string, queue: string, ticketType: string)
  datatype QueueFeatures = QueueFeatures(text: string, ticketType: string, priority: string)

  /** The three loaded models. */
  datatype Models = Models(
    typeModel: TypeFeatures -> Prediction,
    priorityModel: PriorityFeatures -> Prediction,
    queueModel: QueueFeatures -> Prediction)

  /** `th_priority` and `th_queue`. */
  datatype Thresholds = Thresholds(priority: real, queue: real)

  datatype FinalAction =
    | FullyAutoTriaged
    | AutoRouted
    | AutoPriority
    | AutoTypeOnly
    | HumanReviewSuggested

  /** The dictionary `predict_ticket` returns. */
  datatype TriageResult = TriageResult(
    ticketType: string,
    typeConfidence: real,
    predictedPriority: string,
    priorityConfidence: real,
    autoSetPriority: Option<string>,
    predictedQueue: string,
    queueConfidence: real,
    autoRouteTo: Option<string>,
    finalAction: FinalAction)

  /** The inputs and outputs of the three stages of one cascade run. */
  datatype Stages = Stages(
    typeInput: TypeFeatures, typeOut: Prediction,
    priorityInput: PriorityFeatures, priorityOut: Prediction,
    queueInput: QueueFeatures, queueOut: Prediction)

  const DefaultQueue: string := "General"
  const DefaultPriority: string := "Medium"
  /** The fixed type-confidence floor of app.py:85; not configurable. */
  const TypeFloor: real := 0.90
  /** The defaults of app.py:60 and app.py:183-184. */
  const DefaultThresholds: Thresholds := Thresholds(0.80, 0.85)
  /** The separator between an action's name and its explanation. */
  const Arrow: string := " \U{2192} "

  /** Python truthiness of an optional string: `None` and `""` are both false. */
  predicate Truthy(o: Option<string>) {
    o.Some? && o.value != ""
  }

  /**
   * `str(queue).strip() if queue else "General"` (app.py:62): a missing or
   * empty hint gives the default queue; any other hint is stripped, so a
   * whitespace-only hint gives the empty string.
   */
  function ResolveHint(hint: Option<string>): (q: string)
    ensures !Truthy(hint) ==> q == DefaultQueue
    ensures Truthy(hint) ==> (q == "" <==> TextClean.AllSpace(hint.value))
    ensures Truthy(hint) ==> q == TextClean.Strip(hint.value)
  {
    if Truthy(hint) then TextClean.Strip(hint.value) else DefaultQueue
  }

  /** `label if conf >= threshold else None` (app.py:76-77). */
  function AutoApply(p: Prediction, threshold: real): (r: Option<string>)
    ensures r.Some? <==> p.confidence >= threshold
    ensures r.Some? ==> r.value == p.name
  {
    if p.confidence >= threshold then Some(p.name) else None
  }

  /**
   * The first-match decision list of app.py:79-88. Each action is stated by
   * its own condition, independently of the order of the tests.
   */
  function Decide(typeConfidence: real, autoPriority: Option<string>, autoQueue: Option<string>): (a: FinalAction)
    ensures a == FullyAutoTriaged <==> Truthy(autoPriority) && Truthy(autoQueue)
    ensures a == AutoRouted <==> !Truthy(autoPriority) && Truthy(autoQueue)
    ensures a == AutoPriority <==> Truthy(autoPriority) && !Truthy(autoQueue)
    ensures a == AutoTypeOnly <==>
      !Truthy(autoPriority) && !Truthy(autoQueue) && typeConfidence >= TypeFloor
    ensures a == HumanReviewSuggested <==>
      !Truthy(autoPriority) && !Truthy(autoQueue) && typeConfidence < TypeFloor
  {
    if Truthy(autoPriority) && Truthy(autoQueue) then FullyAutoTriaged
    else if Truthy(autoQueue) then AutoRouted
    else if Truthy(autoPriority) then AutoPriority
    else if typeConfidence >= TypeFloor then AutoTypeOnly
    else HumanReviewSuggested
  }

  /** The name of an action: the part of its text before the arrow. */
  function ActionName(a: FinalAction): string {
    match a
    case FullyAutoTriaged => "FULLY AUTO-TRIAGED"
    case AutoRouted => "AUTO-ROUTED"
    case AutoPriority => "AUTO-PRIORITY"
    case AutoTypeOnly => "AUTO-TYPE ONLY"
    case HumanReviewSuggested => "HUMAN REVIEW SUGGESTED"
  }

  /** What the agent still has to do: the part of its text after the arrow. */
  function ActionHint(a: FinalAction): string {
    match a
    case FullyAutoTriaged => "No human needed"
    case AutoRouted => "Agent only confirms priority"
    case AutoPriority => "Agent confirms queue"
    case AutoTypeOnly => "Agent decides priority & queue"
    case HumanReviewSuggested => "Low overall confidence"
  }

  /** The `final_action` string of app.py:80-88. */
  function ActionText(a: FinalAction): string {
    ActionName(a) + Arrow + ActionHint(a)
  }

  /** Runs the three stages in order, each on the labels of the ones before (app.py:61-74). */
  function RunStages(m: Models, text: string, hint: Option<string>): Stages {
    var queue := ResolveHint(hint);
    var typeIn := TypeFeatures(text, queue, DefaultPriority);
    var typeOut := m.typeModel(typeIn);
    var priorityIn := PriorityFeatures(text, queue, typeOut.name);
    var priorityOut := m.priorityModel(priorityIn);
    var queueIn := QueueFeatures(text, typeOut.name, priorityOut.name);
    Stages(typeIn, typeOut, priorityIn, priorityOut, queueIn, m.queueModel(queueIn))
  }

  /** The normalised text every stage sees: `clean_text(subject + " " + body)`. */
  function TicketText(subject: string, body: string): string {
    TextClean.CleanText(Some(subject + " " + body))
  }

  /** True when a result is the one the policy gives for the three stage outputs. */
  predicate ResultOf(r: TriageResult, st: Stages) {
    && r.ticketType == st.typeOut.name && r.typeConfidence == st.typeOut.confidence
    && r.predictedPriority == st.priorityOut.name && r.priorityConfidence == st.priorityOut.confidence
    && r.predictedQueue == st.queueOut.name && r.queueConfidence == st.queueOut.confidence
  }

  /**
   * `predict_ticket(subject, body, queue, th_priority, th_queue)`. The auto
   * values are present exactly when the confidence reaches its threshold
   * (equality applies), and the action is the one whose condition holds.
   */
  function PredictTicket(m: Models, subject: string, body: string, hint: Option<string>, th: Thresholds): (r: TriageResult)
    ensures ResultOf(r, RunStages(m, TicketText(subject, body), hint))
    ensures r.autoSetPriority.Some? <==> r.priorityConfidence >= th.priority
    ensures r.autoSetPriority.Some? ==> r.autoSetPriority.value == r.predictedPriority
    ensures r.autoRouteTo.Some? <==> r.queueConfidence >= th.queue
    ensures r.autoRouteTo.Some? ==> r.autoRouteTo.value == r.predictedQueue
    ensures r.finalAction == FullyAutoTriaged <==> Truthy(r.autoSetPriority) && Truthy(r.autoRouteTo)
    ensures r.finalAction == AutoRouted <==> !Truthy(r.autoSetPriority) && Truthy(r.autoRouteTo)
    ensures r.finalAction == AutoPriority <==> Truthy(r.autoSetPriority) && !Truthy(r.autoRouteTo)
    ensures r.finalAction == AutoTypeOnly <==>
      !Truthy(r.autoSetPriority) && !Truthy(r.autoRouteTo) && r.typeConfidence >= TypeFloor
    ensures r.finalAction == HumanReviewSuggested <==>
      !Truthy(r.autoSetPriority) && !Truthy(r.autoRouteTo) && r.typeConfidence < TypeFloor
  {
    var st := RunStages(m, TicketText(subject, body), hint);
    var autoPriority := AutoApply(st.priorityOut, th.priority);
    var autoQueue := AutoApply(st.queueOut, th.queue);
    TriageResult(
      st.typeOut.name, st.typeOut.confidence,
      st.priorityOut.name, st.priorityOut.confidence, autoPriority,
      st.queueOut.name, st.queueOut.confidence, autoQueue,
      Decide(st.typeOut.confidence, autoPriority, autoQueue))
  }

  // ---------------------------------------------------------------------------
  // Properties of the cascade

  /**
   * The type stage sees the resolved hint and the fixed priority "Medium";
   * the priority stage sees the type label; the queue stage sees the type and
   * priority labels and the text, and nothing else.
   */
  lemma CascadeThreadsLabels(m: Models, text: string, hint: Option<string>)
    ensures var st := RunStages(m, text, hint);
      && st.typeInput == TypeFeatures(text, ResolveHint(hint), DefaultPriority)
      && st.typeOut == m.typeModel(st.typeInput)
      && st.priorityInput == PriorityFeatures(text, ResolveHint(hint), st.typeOut.name)
      && st.priorityOut == m.priorityModel(st.priorityInput)
      && st.queueInput == QueueFeatures(text, st.typeOut.name, st.priorityOut.name)
      && st.queueOut == m.queueModel(st.queueInput)
  {
  }

  /**
   * The queue stage never sees the hint: two runs on the same text whose
   * type and priority stages agree give the queue stage the same input.
   */
  lemma QueueStageIgnoresHint(m: Models, text: string, h1: Option<string>, h2: Option<string>)
    requires RunStages(m, text, h1).typeOut.name == RunStages(m, text, h2).typeOut.name
    requires RunStages(m, text, h1).priorityOut.name == RunStages(m, text, h2).priorityOut.name
    ensures RunStages(m, text, h1).queueInput == RunStages(m, text, h2).queueInput
    ensures RunStages(m, text, h1).queueOut == RunStages(m, text, h2).queueOut
  {
  }

  /** The hint matters only through its resolved queue name. */
  lemma HintOnlyThroughResolvedQueue(m: Models, subject: string, body: string,
                                     h1: Option<string>, h2: Option<string>, th: Thresholds)
    requires ResolveHint(h1) == ResolveHint(h2)
    ensures PredictTicket(m, subject, body, h1, th) == PredictTicket(m, subject, body, h2, th)
  {
  }

  /** A missing hint, an empty hint and the hint "General" are the same input. */
  lemma DefaultHints(m: Models, subject: string, body: string, th: Thresholds)
    ensures PredictTicket(m, subject, body, None, th) == PredictTicket(m, subject, body, Some(""), th)
    ensures PredictTicket(m, subject, body, None, th) == PredictTicket(m, subject, body, Some(DefaultQueue), th)
  {
    GeneralHintResolves();
    HintOnlyThroughResolvedQueue(m, subject, body, None, Some(""), th);
    HintOnlyThroughResolvedQueue(m, subject, body, None, Some(DefaultQueue), th);
  }

  /** The hint "General" has no surrounding whitespace, so it resolves to itself. */
  lemma GeneralHintResolves()
    ensures ResolveHint(Some(DefaultQueue)) == DefaultQueue
  {
    assert TextClean.StripStart(DefaultQueue) == DefaultQueue;
    assert TextClean.StripEnd(DefaultQueue) == DefaultQueue;
  }

  /** A whitespace-only hint is truthy, so it is stripped to "" and not replaced by "General". */
  lemma BlankHintIsEmptyQueue(hint: string)
    requires hint != [] && TextClean.AllSpace(hint)
    ensures ResolveHint(Some(hint)) == ""
    ensures ResolveHint(Some(hint)) != DefaultQueue
  {
  }

  // ---------------------------------------------------------------------------
  // Properties of the policy

  /** The condition of each action as the decision list states it, tested on its own. */
  predicate ActionCondition(a: FinalAction, typeConfidence: real, autoPriority: Option<string>, autoQueue: Option<string>) {
    match a
    case FullyAutoTriaged => Truthy(autoPriority) && Truthy(autoQueue)
    case AutoRouted => !Truthy(autoPriority) && Truthy(autoQueue)
    case AutoPriority => Truthy(autoPriority) && !Truthy(autoQueue)
    case AutoTypeOnly => !Truthy(autoPriority) && !Truthy(autoQueue) && typeConfidence >= TypeFloor
    case HumanReviewSuggested => !Truthy(autoPriority) && !Truthy(autoQueue) && typeConfidence < TypeFloor
  }

  /**
   * Exhaustive and exclusive: for every input exactly one action's condition
   * holds, and it is the action the first-match list picks.
   */
  lemma DecisionIsUniqueMatch(typeConfidence: real, autoPriority: Option<string>, autoQueue: Option<string>)
    ensures forall a :: ActionCondition(a, typeConfidence, autoPriority, autoQueue)
                        <==> a == Decide(typeConfidence, autoPriority, autoQueue)
  {
  }

  /** How many of priority and queue an action auto-applies. */
  function AutoCount(a: FinalAction): nat {
    match a
    case FullyAutoTriaged => 2
    case AutoRouted => 1
    case AutoPriority => 1
    case _ => 0
  }

  /**
   * Lowering the thresholds never takes automation away: whatever is
   * auto-applied under the higher thresholds is auto-applied under the lower.
   */
  lemma LowerThresholdsAutomateMore(m: Models, subject: string, body: string, hint: Option<string>,
                                    lo: Thresholds, hi: Thresholds)
    requires lo.priority <= hi.priority && lo.queue <= hi.queue
    ensures var a, b := PredictTicket(m, subject, body, hint, lo), PredictTicket(m, subject, body, hint, hi);
      && (b.autoSetPriority.Some? ==> a.autoSetPriority == b.autoSetPriority)
      && (b.autoRouteTo.Some? ==> a.autoRouteTo == b.autoRouteTo)
      && AutoCount(a.finalAction) >= AutoCount(b.finalAction)
  {
  }

  // ---------------------------------------------------------------------------
  // Worked scenarios with fixed classifier outputs

  function FixedModels(typeOut: Prediction, priorityOut: Prediction, queueOut: Prediction): Models {
    Models(f => typeOut, f => priorityOut, f => queueOut)
  }

  /** Every stage confident: both values auto-apply and no human is needed. */
  lemma ScenarioFullyAuto()
    ensures var r := PredictTicket(
      FixedModels(Prediction("Incident", 0.95), Prediction("Medium", 0.82), Prediction("Technical", 0.90)),
      "Can't login", "I forgot my password", Some(""), DefaultThresholds);
      && r.autoSetPriority == Some("Medium") && r.autoRouteTo == Some("Technical")
      && r.finalAction == FullyAutoTriaged
  {
  }

  /** The queue below its threshold: only the priority auto-applies. */
  lemma ScenarioAutoPriority()
    ensures var r := PredictTicket(
      FixedModels(Prediction("Incident", 0.95), Prediction("Medium", 0.82), Prediction("Technical", 0.70)),
      "Can't login", "I forgot my password", Some(""), DefaultThresholds);
      r.autoRouteTo == None && r.finalAction == AutoPriority
  {
  }

  /** Priority and queue unsure, type sure: only the type is trusted. */
  lemma ScenarioAutoTypeOnly()
    ensures var r := PredictTicket(
      FixedModels(Prediction("Incident", 0.92), Prediction("Medium", 0.50), Prediction("Technical", 0.40)),
      "Can't login", "I forgot my password", Some(""), DefaultThresholds);
      r.autoSetPriority == None && r.autoRouteTo == None && r.finalAction == AutoTypeOnly
  {
  }

  /** Nothing confident: human review. */
  lemma ScenarioHumanReview()
    ensures var r := PredictTicket(
      FixedModels(Prediction("Incident", 0.60), Prediction("Medium", 0.50), Prediction("Technical", 0.40)),
      "Can't login", "I forgot my password", Some(""), DefaultThresholds);
      r.autoSetPriority == None && r.autoRouteTo == None && r.finalAction == HumanReviewSuggested
  {
  }

  /** Exactly at the threshold the value auto-applies; just below it does not. */
  lemma ThresholdBoundary(name: string, t: real, below: real)
    requires below < t
    ensures AutoApply(Prediction(name, t), t) == Some(name)
    ensures AutoApply(Prediction(name, below), t) == None
  {
  }
}
