/** The scenario player: a step index plus the state of the step on screen,
    driven by four transitions (entering a step, a countdown tick, choosing
    an option, moving on) and the score shown once an option is chosen.
    Timers are not modelled; a tick is an explicit transition. */
module Player {
  import opened Wrappers
  import opened Catalog
  import EventLog

  /** The step on screen: the option chosen for it, if any, and the seconds
      left on its countdown (None when the step has no time limit). */
  datatype StepState = StepState(
    step: ScenarioStep,
    selected: Option<ScenarioOption>,
    remaining: Option<int>)

  /** `current` is None until the first step has been entered; the player
      renders nothing while it is. */
  datatype PlayerState = PlayerState(index: nat, current: Option<StepState>)

  /** Moving on either shows another step or hands control back to the
      caller (the last step's "Finish"). */
  datatype Outcome = Playing(state: PlayerState) | Finished

  /** The states a well-formed scenario can reach: the index names a step,
      that step is on screen, a chosen option is one of its options, and the
      countdown runs exactly when the step has a limit, between 0 and it. */
  predicate Inv(sc: Scenario, s: PlayerState) {
    && s.index < |sc.steps|
    && s.current.Some?
    && var cur := s.current.value;
    && cur.step == sc.steps[s.index]
    && (cur.selected.Some? ==> cur.selected.value in cur.step.options)
    && (cur.remaining.Some? <==> cur.step.timeLimit.Some?)
    && (cur.remaining.Some? ==> 0 <= cur.remaining.value <= cur.step.timeLimit.value)
  }

  // ---------------------------------------------------------------------
  // Transitions
  // ---------------------------------------------------------------------

  /** Entering the step at the current index: nothing selected and the
      countdown at the step's full time limit. An index with no step leaves
      the state alone. */
  function Enter(sc: Scenario, s: PlayerState): (r: PlayerState)
    ensures r.index == s.index
    ensures s.index < |sc.steps| ==>
      && r.current.Some?
      && r.current.value.step == sc.steps[s.index]
      && r.current.value.selected.None?
      && r.current.value.remaining == sc.steps[s.index].timeLimit
    ensures s.index >= |sc.steps| ==> r == s
    ensures s.index < |sc.steps| && WellFormed(sc) ==> Inv(sc, r)
  {
    if s.index < |sc.steps| then
      var step := sc.steps[s.index];
      assert step in sc.steps;
      s.(current := Some(StepState(step, None, step.timeLimit)))
    else
      s
  }

  /** Mounting the player: index 0, then the entry of step 0, which shows
      with nothing chosen and the countdown at its full limit. A scenario
      without steps never gets a step on screen. */
  function Start(sc: Scenario): (r: PlayerState)
    ensures r.index == 0
    ensures r.current.None? <==> |sc.steps| == 0
    ensures |sc.steps| > 0 ==> r.current == Some(StepState(sc.steps[0], None, sc.steps[0].timeLimit))
    ensures WellFormed(sc) ==> Inv(sc, r)
  {
    Enter(sc, PlayerState(0, None))
  }

  /** A one-second timer is pending exactly when a countdown is shown and
      has not reached 0. */
  predicate TickArmed(s: PlayerState) {
    s.current.Some? && s.current.value.remaining.Some? && s.current.value.remaining.value > 0
  }

  /** One countdown tick: a positive countdown drops by one second; 0, a
      negative value and "no limit" are left as they are. Nothing else, in
      particular neither the choice nor the index, changes. */
  function Tick(s: PlayerState): (r: PlayerState)
    ensures r.index == s.index
    ensures r.current.Some? <==> s.current.Some?
    ensures s.current.Some? ==>
      && r.current.value.step == s.current.value.step
      && r.current.value.selected == s.current.value.selected
    ensures TickArmed(s) ==> r.current.value.remaining == Some(s.current.value.remaining.value - 1)
    ensures !TickArmed(s) ==> r == s
  {
    match s.current
    case None => s
    case Some(cur) =>
      var rem := match cur.remaining
        case Some(n) => if n > 0 then Some(n - 1) else cur.remaining
        case None => None;
      s.(current := Some(cur.(remaining := rem)))
  }

  /** `k` ticks in a row. Ticks only ever touch the countdown: the index,
      the step on screen and its choice stay as they were. */
  function Ticks(s: PlayerState, k: nat): (r: PlayerState)
    ensures r.index == s.index
    ensures r.current.Some? <==> s.current.Some?
    ensures s.current.Some? ==>
      r.current.value.step == s.current.value.step
      && r.current.value.selected == s.current.value.selected
      && (s.current.value.remaining.None? <==> r.current.value.remaining.None?)
    decreases k
  {
    if k == 0 then s else Ticks(Tick(s), k - 1)
  }

  /** The log record of a choice. */
  function ChoiceEvent(sc: Scenario, step: ScenarioStep, opt: ScenarioOption, ts: int): EventLog.LogEvent
  {
    EventLog.LogEvent(ts, EventLog.ScenarioChoice, EventLog.ChoicePayload(sc.id, step.id, opt))
  }

  /** Choosing `opt` at time `ts`. Once a step has a choice, further choices
      change nothing and log nothing. Otherwise the choice is recorded,
      whatever the countdown shows, and exactly one choice event is appended
      to the log (unless the write fails, which is silent). The option
      buttons exist only while a step is on screen. */
  function Select(sc: Scenario, s: PlayerState, opt: ScenarioOption, ts: int,
                  store: EventLog.Storage, writeOk: bool): (r: (PlayerState, EventLog.Storage))
    requires s.current.Some?
    ensures s.current.value.selected.Some? ==> r == (s, store)
    ensures s.current.value.selected.None? ==>
      && r.0.index == s.index
      && r.0.current.Some?
      && r.0.current.value.selected == Some(opt)
      && r.0.current.value.step == s.current.value.step
      && r.0.current.value.remaining == s.current.value.remaining
      && (writeOk ==>
            EventLog.ReadLog(r.1) ==
              EventLog.ReadLog(store) + [ChoiceEvent(sc, s.current.value.step, opt, ts)])
      && (!writeOk ==> r.1 == store)
      && EventLog.OthersUnchanged(store, r.1)
  {
    var cur := s.current.value;
    if cur.selected.Some? then
      (s, store)
    else
      var s' := s.(current := Some(cur.(selected := Some(opt))));
      (s', EventLog.PushLog(store, ChoiceEvent(sc, cur.step, opt, ts), writeOk))
  }

  /** "Next step" / "Finish", enabled only once an option is chosen: moves to
      the following step, entered afresh, or finishes after the last one. */
  function Next(sc: Scenario, s: PlayerState): (r: Outcome)
    requires s.current.Some? && s.current.value.selected.Some?
    ensures r.Finished? <==> s.index + 1 >= |sc.steps|
    ensures r.Playing? ==>
      && r.state.index == s.index + 1
      && r.state.current == Some(StepState(sc.steps[s.index + 1], None, sc.steps[s.index + 1].timeLimit))
  {
    if s.index + 1 < |sc.steps| then
      Playing(Enter(sc, PlayerState(s.index + 1, s.current)))
    else
      Finished
  }

  /** The caption of the button that calls Next: "Finish" on the last step
      (and past it), "Next step" everywhere else. */
  function NextLabel(sc: Scenario, s: PlayerState): (r: string)
    ensures r == "Finish" || r == "Next step"
    ensures r == "Finish" <==> s.index + 1 >= |sc.steps|
  {
    if s.index + 1 < |sc.steps| then "Next step" else "Finish"
  }

  // ---------------------------------------------------------------------
  // Score shown with the feedback
  // ---------------------------------------------------------------------

  /** `steps.slice(0, index + 1)`: the steps up to the current one, clamped
      to the end of the list. */
  function UpTo(steps: seq<ScenarioStep>, index: nat): (r: seq<ScenarioStep>)
    ensures |r| == if index + 1 <= |steps| then index + 1 else |steps|
    ensures r == steps[..|r|]
  {
    steps[..if index + 1 <= |steps| then index + 1 else |steps|]
  }

  /** The score reduction, folded from the left: a step contributes the chosen
      option's score when its id is the id of the step on screen, and nothing
      otherwise. Earlier steps' choices are not part of it. */
  function SumMatching(steps: seq<ScenarioStep>, id: string, sel: Option<ScenarioOption>): (r: int)
    ensures sel.None? ==> r == 0
    ensures (forall k :: 0 <= k < |steps| ==> steps[k].id != id) ==> r == 0
    ensures sel.Some? && sel.value.score >= 0 ==> r >= 0
    decreases |steps|
  {
    if steps == [] then 0
    else
      SumMatching(steps[..|steps| - 1], id, sel)
        + (if steps[|steps| - 1].id == id && sel.Some? then sel.value.score else 0)
  }

  /** The number of steps carrying `id`. */
  function CountId(steps: seq<ScenarioStep>, id: string): (r: nat)
    ensures r <= |steps|
  {
    if steps == [] then 0
    else CountId(steps[..|steps| - 1], id) + (if steps[|steps| - 1].id == id then 1 else 0)
  }

  /** The score shown as "Overall": the chosen score once for every step up
      to the current one that carries the current step's id, and 0 before a
      choice is made. */
  function ScoreSum(sc: Scenario, s: PlayerState): (r: int)
    requires s.current.Some?
    ensures s.current.value.selected.None? ==> r == 0
    ensures s.current.value.selected.Some? ==>
      r == CountId(UpTo(sc.steps, s.index), s.current.value.step.id) * s.current.value.selected.value.score
  {
    var upTo := UpTo(sc.steps, s.index);
    SumMatchingIsCount(upTo, s.current.value.step.id, s.current.value.selected);
    SumMatching(upTo, s.current.value.step.id, s.current.value.selected)
  }

  /** 100 points per step up to the current one. */
  function MaxScore(sc: Scenario, s: PlayerState): (r: nat)
    ensures s.index < |sc.steps| ==> r == 100 * (s.index + 1)
    ensures r == 0 <==> |sc.steps| == 0
  {
    100 * |UpTo(sc.steps, s.index)|
  }

  /** `Math.round(num / den)` for a positive denominator: the nearest integer,
      halves rounded up. */
  function RoundHalfUp(num: int, den: int): (r: int)
    requires den > 0
    ensures 2 * den * r <= 2 * num + den < 2 * den * (r + 1)
  {
    (2 * num + den) / (2 * den)
  }

  /** The "Overall" percentage; None where the source divides by zero (a
      scenario without steps, which never reaches the screen). */
  function Percent(sc: Scenario, s: PlayerState): (r: Option<int>)
    requires s.current.Some?
    ensures r.None? <==> MaxScore(sc, s) == 0
    ensures r.Some? ==>
      2 * MaxScore(sc, s) * r.value <= 200 * ScoreSum(sc, s) + MaxScore(sc, s) < 2 * MaxScore(sc, s) * (r.value + 1)
  {
    var max := MaxScore(sc, s);
    if max == 0 then None else Some(RoundHalfUp(100 * ScoreSum(sc, s), max))
  }

  /** What appears under the options once one is chosen. */
  datatype Feedback = Feedback(text: string, stepScore: int, overall: Option<int>)

  /** The feedback panel: present exactly when an option is chosen, showing
      that option's feedback and score and the overall percentage. */
  function FeedbackPanel(sc: Scenario, s: PlayerState): (r: Option<Feedback>)
    requires s.current.Some?
    ensures r.Some? <==> s.current.value.selected.Some?
    ensures r.Some? ==>
      && r.value.text == s.current.value.selected.value.feedback
      && r.value.stepScore == s.current.value.selected.value.score
      && r.value.overall == Percent(sc, s)
  {
    match s.current.value.selected
    case None => None
    case Some(o) => Some(Feedback(o.feedback, o.score, Percent(sc, s)))
  }

  // ---------------------------------------------------------------------
  // Properties
  // ---------------------------------------------------------------------

  lemma TickPreservesInv(sc: Scenario, s: PlayerState)
    requires Inv(sc, s)
    ensures Inv(sc, Tick(s))
  {
  }

  lemma SelectPreservesInv(sc: Scenario, s: PlayerState, opt: ScenarioOption, ts: int,
                           store: EventLog.Storage, writeOk: bool)
    requires Inv(sc, s) && opt in s.current.value.step.options
    ensures Inv(sc, Select(sc, s, opt, ts, store, writeOk).0)
  {
  }

  /** Moving on keeps a well-formed scenario in reachable states; the index
      grows by exactly one and stays below the step count. */
  lemma NextPreservesInv(sc: Scenario, s: PlayerState)
    requires WellFormed(sc) && Inv(sc, s) && s.current.value.selected.Some?
    ensures Next(sc, s).Playing? ==>
      Inv(sc, Next(sc, s).state) && Next(sc, s).state.index == s.index + 1
  {
  }

  /** The button reads "Finish" exactly when pressing it ends the scenario. */
  lemma NextLabelMatches(sc: Scenario, s: PlayerState)
    requires s.current.Some? && s.current.value.selected.Some?
    ensures NextLabel(sc, s) == "Finish" <==> Next(sc, s).Finished?
  {
  }

  /** A countdown from `n` seconds shows `n - k` after `k <= n` ticks and 0
      ever after; no timer is pending once it shows 0, and the ticks never
      choose an option or move to another step. */
  lemma {:induction false} Countdown(s: PlayerState, n: nat, k: nat)
    requires s.current.Some? && s.current.value.remaining == Some(n)
    ensures Ticks(s, k).current.Some?
    ensures Ticks(s, k).current.value.remaining == Some(if k <= n then n - k else 0)
    ensures Ticks(s, k).index == s.index
    ensures Ticks(s, k).current.value.selected == s.current.value.selected
    ensures Ticks(s, k).current.value.step == s.current.value.step
    ensures k >= n ==> !TickArmed(Ticks(s, k))
    decreases k
  {
    if k > 0 {
      if n > 0 {
        Countdown(Tick(s), n - 1, k - 1);
      } else {
        assert Tick(s) == s;
        Countdown(s, 0, k - 1);
      }
    }
  }

  lemma {:induction false} SumMatchingIsCount(steps: seq<ScenarioStep>, id: string, sel: Option<ScenarioOption>)
    ensures SumMatching(steps, id, sel) == CountId(steps, id) * (if sel.Some? then sel.value.score else 0)
    decreases |steps|
  {
    if steps != [] {
      SumMatchingIsCount(steps[..|steps| - 1], id, sel);
    }
  }

  lemma {:induction false} CountIdAbsent(steps: seq<ScenarioStep>, id: string)
    requires forall i :: 0 <= i < |steps| ==> steps[i].id != id
    ensures CountId(steps, id) == 0
    decreases |steps|
  {
    if steps != [] {
      CountIdAbsent(steps[..|steps| - 1], id);
    }
  }

  /** With distinct step ids, every step's id occurs exactly once. */
  lemma {:induction false} CountIdDistinct(steps: seq<ScenarioStep>, k: nat)
    requires DistinctStepIds(steps) && k < |steps|
    ensures CountId(steps, steps[k].id) == 1
    decreases |steps|
  {
    var init := steps[..|steps| - 1];
    if k == |steps| - 1 {
      CountIdAbsent(init, steps[k].id);
    } else {
      assert init[k] == steps[k];
      CountIdDistinct(init, k);
    }
  }

  /** The "Overall" figure is the CURRENT step's score over 100 points per
      step so far: with distinct step ids the sum picks up exactly the step
      on screen, and choices on earlier steps do not count. */
  lemma OverallIsCurrentStepOnly(sc: Scenario, s: PlayerState)
    requires WellFormed(sc) && Inv(sc, s)
    ensures ScoreSum(sc, s) == s.current.value.selected.GetOr(ScenarioOption("", 0, "")).score
    ensures MaxScore(sc, s) == 100 * (s.index + 1)
    ensures Percent(sc, s) ==
      Some(RoundHalfUp(100 * s.current.value.selected.GetOr(ScenarioOption("", 0, "")).score, 100 * (s.index + 1)))
  {
    var upTo := UpTo(sc.steps, s.index);
    assert upTo[s.index] == sc.steps[s.index];
    CountIdDistinct(upTo, s.index);
    SumMatchingIsCount(upTo, s.current.value.step.id, s.current.value.selected);
  }

  lemma MulCancelLess(d: int, a: int, b: int)
    requires d > 0 && d * a < d * b
    ensures a < b
  {
  }

  lemma RoundHalfUpRange(num: int, den: int)
    requires den > 0 && 0 <= num <= 100 * den
    ensures 0 <= RoundHalfUp(num, den) <= 100
  {
    var r := RoundHalfUp(num, den);
    assert 2 * den * r < 2 * den * 101;
    MulCancelLess(2 * den, r, 101);
    assert 2 * den * 0 < 2 * den * (r + 1);
    MulCancelLess(2 * den, 0, r + 1);
  }

  lemma ProductBound(c: nat, score: int, n: nat)
    requires 0 <= score <= 100 && c <= n
    ensures 0 <= c * score <= 100 * n
  {
    assert c * score <= c * 100;
  }

  /** The score reduction never exceeds the 100 points per step it is
      measured against, and is never negative, once scores are in range,
      even if step ids were to repeat. */
  lemma ScoreSumInRange(sc: Scenario, s: PlayerState)
    requires s.current.Some?
    requires s.current.value.selected.Some? ==> ScoreInRange(s.current.value.selected.value)
    ensures 0 <= ScoreSum(sc, s) <= MaxScore(sc, s)
  {
    var upTo := UpTo(sc.steps, s.index);
    var sel := s.current.value.selected;
    SumMatchingIsCount(upTo, s.current.value.step.id, sel);
    ProductBound(CountId(upTo, s.current.value.step.id), if sel.Some? then sel.value.score else 0, |upTo|);
  }

  /** The overall percentage is always within 0..100 once scores are. */
  lemma PercentInRange(sc: Scenario, s: PlayerState)
    requires Inv(sc, s)
    requires s.current.value.selected.Some? ==> ScoreInRange(s.current.value.selected.value)
    ensures Percent(sc, s).Some?
    ensures 0 <= Percent(sc, s).value <= 100
  {
    ScoreSumInRange(sc, s);
    RoundHalfUpRange(100 * ScoreSum(sc, s), MaxScore(sc, s));
  }

  /** The state on screen at the OODA trainer's step `index` once the
      option at `choice` has been picked. */
  function OodaChosen(index: nat, choice: nat): PlayerState
    requires index < 4 && choice < 3
  {
    var step := OodaTrainer.steps[index];
    PlayerState(index, Some(StepState(step, Some(step.options[choice]), Some(20))))
  }

  /** Picking the options scoring 100, 40, 100 and 20 in the OODA trainer
      walks through the four steps and ends with "Finish". Each choice adds
      its own event to the log, so the run leaves four choice events, in
      order, after whatever the log held before. */
  lemma OodaRun(store: EventLog.Storage, ts: int)
    ensures
      var sc := OodaTrainer;
      var p1 := Select(sc, Start(sc), ObserveStep.options[0], ts, store, true);
      var p3 := Select(sc, Next(sc, p1.0).state, OrientStep.options[1], ts, p1.1, true);
      var p5 := Select(sc, Next(sc, p3.0).state, DecideStep.options[0], ts, p3.1, true);
      var p7 := Select(sc, Next(sc, p5.0).state, ActStep.options[2], ts, p5.1, true);
      && p1.0 == OodaChosen(0, 0) && p3.0 == OodaChosen(1, 1)
      && p5.0 == OodaChosen(2, 0) && p7.0 == OodaChosen(3, 2)
      && Next(sc, p7.0).Finished?
      && EventLog.ReadLog(p7.1) == EventLog.ReadLog(store) + [
           ChoiceEvent(sc, ObserveStep, ObserveStep.options[0], ts),
           ChoiceEvent(sc, OrientStep, OrientStep.options[1], ts),
           ChoiceEvent(sc, DecideStep, DecideStep.options[0], ts),
           ChoiceEvent(sc, ActStep, ActStep.options[2], ts)]
      && |EventLog.ReadLog(p7.1)| == |EventLog.ReadLog(store)| + 4
  {
  }

  /** On that run the "Overall" figure reads 100% on the first step and 5%
      on the last (20 out of 400), not the 65% a running total (260 out of
      400) would give. */
  lemma OodaOverallExample()
    ensures Percent(OodaTrainer, OodaChosen(0, 0)) == Some(100)
    ensures Percent(OodaTrainer, OodaChosen(3, 2)) == Some(5)
  {
    OodaTrainerWellFormed();
    assert OodaTrainer in Scenarios;
    assert WellFormed(OodaTrainer);
    var first := OodaChosen(0, 0);
    assert Inv(OodaTrainer, first);
    OverallIsCurrentStepOnly(OodaTrainer, first);
    assert RoundHalfUp(100 * 100, 100) == 100;
    var last := OodaChosen(3, 2);
    assert Inv(OodaTrainer, last);
    OverallIsCurrentStepOnly(OodaTrainer, last);
    assert RoundHalfUp(100 * 20, 400) == 5;
  }
}
