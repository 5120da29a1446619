/** The static scenario catalog: the types of a scenario, its steps and
    their options, a well-formedness predicate the player relies on, and the
    one concrete scenario the application ships with. */
module Catalog {
  import opened Wrappers

  datatype Phase = Observe | Orient | Decide | Act

  datatype Difficulty = Beginner | Intermediate | Advanced

  /** One answer to a step; `score` is its relative usefulness, 0 to 100. */
  datatype ScenarioOption = ScenarioOption(text: string, score: int, feedback: string)

  /** `timeLimit` is in seconds; None when the step has no countdown. */
  datatype ScenarioStep = ScenarioStep(
    id: string,
    phase: Phase,
    prompt: string,
    timeLimit: Option<int>,
    options: seq<ScenarioOption>)

  datatype Scenario = Scenario(
    id: string,
    title: string,
    summary: string,
    tags: seq<string>,
    difficulty: Difficulty,
    steps: seq<ScenarioStep>)

  predicate ScoreInRange(o: ScenarioOption) {
    0 <= o.score <= 100
  }

  /** The player tells options apart by their text, so no two may share one. */
  predicate DistinctOptionTexts(opts: seq<ScenarioOption>) {
    forall i, j :: 0 <= i < j < |opts| ==> opts[i].text != opts[j].text
  }

  /** The score computation matches steps by id, so no two may share one. */
  predicate DistinctStepIds(steps: seq<ScenarioStep>) {
    forall i, j :: 0 <= i < j < |steps| ==> steps[i].id != steps[j].id
  }

  predicate DistinctScenarioIds(cat: seq<Scenario>) {
    forall i, j :: 0 <= i < j < |cat| ==> cat[i].id != cat[j].id
  }

  /** A step can be answered (it has an option), every score is in range,
      option texts identify options, and a countdown never starts negative. */
  predicate WellFormedStep(st: ScenarioStep) {
    && |st.options| > 0
    && (forall o :: o in st.options ==> ScoreInRange(o))
    && DistinctOptionTexts(st.options)
    && (st.timeLimit.Some? ==> st.timeLimit.value >= 0)
  }

  /** What the player needs of a scenario: at least one step, every step
      well formed, and step ids distinct. */
  predicate WellFormed(sc: Scenario) {
    && |sc.steps| > 0
    && (forall st :: st in sc.steps ==> WellFormedStep(st))
    && DistinctStepIds(sc.steps)
  }

  predicate WellFormedCatalog(cat: seq<Scenario>) {
    && (forall sc :: sc in cat ==> WellFormed(sc))
    && DistinctScenarioIds(cat)
  }

  /** Every step offers an option worth the full 100 points that the player
      budgets per step, so a perfect run scores 100%. */
  predicate PerfectScoreAttainable(sc: Scenario) {
    forall st :: st in sc.steps ==> exists o :: o in st.options && o.score == 100
  }

  const OodaId: string := "ooda-loop-trainer"

  const ObserveStep := ScenarioStep(
    "observe", Observe,
    "You\U{2019}re monitoring an entry area. You notice raised voices and a small crowd forming near a side door. What do you focus on first?",
    Some(20),
    [ ScenarioOption(
        "Who is involved, where they are, and potential escape routes.", 100,
        "Good observation: people, positions, and exits help you understand risk."),
      ScenarioOption(
        "Only the loudest person and ignore surroundings.", 40,
        "You picked up on one element, but missed context and environment."),
      ScenarioOption(
        "Nothing yet; you assume it\U{2019}s normal chatter.", 10,
        "That risks missing early indicators and losing initiative.") ])

  const OrientStep := ScenarioStep(
    "orient", Orient,
    "You see one agitated person and others backing away. No obvious weapons. What\U{2019}s your initial orientation?",
    Some(20),
    [ ScenarioOption(
        "Treat it as a potential risk, but prioritize distance and de-escalation.", 100,
        "Balanced orientation: possible risk, but not automatically a lethal threat."),
      ScenarioOption(
        "Assume the person is harmless until proven otherwise.", 40,
        "You\U{2019}re under-weighting risk; better to respect early warning signs."),
      ScenarioOption(
        "Assume the worst and prepare for maximum force immediately.", 20,
        "This over-escalates before you have enough information.") ])

  const DecideStep := ScenarioStep(
    "decide", Decide,
    "You can safely keep some distance, have radio contact available, and there are bystanders around. What\U{2019}s your decision?",
    Some(20),
    [ ScenarioOption(
        "Create space, notify your team/dispatch, and begin calm verbal engagement.", 100,
        "Strong choice: communication + backup + distance keeps options open."),
      ScenarioOption(
        "Move in very close and confront the person loudly.", 30,
        "Closes distance and may escalate tension unnecessarily."),
      ScenarioOption(
        "Ignore situation and stay at your original post.", 10,
        "Avoids immediate conflict, but leaves potential risk unmanaged.") ])

  const ActStep := ScenarioStep(
    "act", Act,
    "The person calms slightly when you speak but still seems tense. Bystanders are watching. What action do you take?",
    Some(20),
    [ ScenarioOption(
        "Maintain distance, keep a clear path to leave, and continue calm but firm communication.", 100,
        "You are managing risk, protecting bystanders, and preserving options."),
      ScenarioOption(
        "Abruptly end contact and walk away without notifying anyone.", 40,
        "This may leave others exposed to risk you detected."),
      ScenarioOption(
        "Immediately escalate to physical control without further attempt to de-escalate.", 20,
        "This skips remaining non-physical options and increases liability.") ])

  const OodaTrainer := Scenario(
    OodaId,
    "OODA Loop Decision Trainer",
    "Walk through Observe, Orient, Decide, and Act in a developing security situation.",
    ["OODA", "decision-making", "cognitive"],
    Beginner,
    [ObserveStep, OrientStep, DecideStep, ActStep])

  /** The catalog shipped with the application. */
  const Scenarios: seq<Scenario> := [OodaTrainer]

  /** What each OODA step satisfies: well formed, twenty seconds, and a
      first option worth the full 100 points. */
  predicate OodaStepFacts(st: ScenarioStep) {
    WellFormedStep(st) && st.timeLimit == Some(20) && st.options[0].score == 100
  }

  lemma ObserveStepFacts() ensures OodaStepFacts(ObserveStep) {
    assert DistinctOptionTexts(ObserveStep.options);
  }

  lemma OrientStepFacts() ensures OodaStepFacts(OrientStep) {
    assert DistinctOptionTexts(OrientStep.options);
  }

  lemma DecideStepFacts() ensures OodaStepFacts(DecideStep) {
    assert DistinctOptionTexts(DecideStep.options);
  }

  lemma ActStepFacts() ensures OodaStepFacts(ActStep) {
    assert DistinctOptionTexts(ActStep.options);
  }

  lemma OodaStepsFacts()
    ensures forall st :: st in OodaTrainer.steps ==> OodaStepFacts(st)
  {
    ObserveStepFacts();
    OrientStepFacts();
    DecideStepFacts();
    ActStepFacts();
  }

  /** The OODA trainer is well formed and every step has a twenty-second
      limit. */
  lemma OodaTrainerWellFormed()
    ensures WellFormed(OodaTrainer)
    ensures forall st :: st in OodaTrainer.steps ==> st.timeLimit == Some(20)
  {
    OodaStepsFacts();
    assert DistinctStepIds(OodaTrainer.steps);
  }

  /** Every OODA step offers an option worth the full 100 points. */
  lemma OodaPerfectScore()
    ensures PerfectScoreAttainable(OodaTrainer)
  {
    OodaStepsFacts();
    forall st | st in OodaTrainer.steps
      ensures exists o :: o in st.options && o.score == 100
    {
      assert st.options[0] in st.options;
    }
  }

  /** The shipped catalog satisfies everything the player relies on. */
  lemma CatalogWellFormed()
    ensures WellFormedCatalog(Scenarios)
  {
    OodaTrainerWellFormed();
  }

  /** The OODA trainer walks the four phases in order. */
  lemma OodaTrainerShape()
    ensures |OodaTrainer.steps| == 4
    ensures OodaTrainer.steps[0].phase == Observe && OodaTrainer.steps[1].phase == Orient
    ensures OodaTrainer.steps[2].phase == Decide && OodaTrainer.steps[3].phase == Act
  {
  }
}
