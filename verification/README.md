# Security-training client logic in Dafny

This project models the client-side logic of a browser training application.
The application plays scripted decision scenarios (an OODA-loop trainer). It
also runs a same-device, multi-tab team board with markers and chat, and keeps
a local event log for after-action review. Five pieces carry behaviour, and
each becomes pure Dafny:

- **Event log store** (`event_log.dfy`, module `EventLog`). Browser storage is a
  map from keys to an abstract parsed value, `Slot`. A missing key is an absent
  item; `Corrupt` is text that does not parse; `NonArray` is JSON that is not an
  array; `Valid(events)` is a log. `ReadLog`, `PushLog` and `ClearLog` are total
  functions. A write or removal may fail (`writeOk` / `removeOk` false). A
  failure leaves storage unchanged and is never reported.
- **Scenario catalog** (`catalog.dfy`, module `Catalog`). This file holds the
  scenario, step and option types and the shipped catalog (the OODA trainer,
  text included). It also holds the well-formedness predicate the player relies
  on, and the proof that the catalog satisfies it.
- **Scenario player** (`player.dfy`, module `Player`). The player is a state
  machine over a step index and the state of the step on screen: the chosen
  option and the seconds left. It has four transitions: `Enter`, `Tick`,
  `Select` and `Next`. `Select` writes to the event log. The score panel is
  modelled by `ScoreSum`, `MaxScore`, `Percent` and `FeedbackPanel`.
- **Team board** (`team.dfy`, module `Team`, with `messages.dfy` and
  `text.dfy`). The board is a reducer over one tab's markers, chat, input box
  and role. The broadcast channel becomes an outbox: the sequence of messages
  the tab posted. Another tab applies those messages with `Receive`.
- **Solo mode** (`solo.dfy`, module `Solo`). Solo mode finds the OODA trainer
  by id and starts the player on it, or renders nothing.

**The "Overall" percentage is not a running total.** The score reduction
(src/components/ScenarioPlayer.tsx:87-94) walks the steps up to the current
index. It adds the chosen score only for a step whose id equals the id of the
step *on screen*. The player also forgets earlier choices when it enters a new
step. So with the distinct step ids of the catalog, "Overall" is the current
step's score divided by `100 * (index + 1)`. A running total would instead
sum all the choices so far. The model follows the code.
`Player.OverallIsCurrentStepOnly` states this for every well-formed scenario.
`Player.OodaOverallExample` gives the concrete case: choices scoring 100, 40,
100 and 20 show 5% on the last step, where a running total would show 65%.

Environment values are parameters:
- clock readings (`ts`, `msgTs`, `logTs`);
- generated ids (`id`);
- whether a storage write succeeds (`writeOk`);
- whether the broadcast channel exists (`channelOpen`).

## Model

| member | source | states |
|---|---|---|
| Catalog.CatalogWellFormed | src/data/scenarios.ts:24-143 | The shipped catalog is well formed and its scenario ids are distinct. |
| Catalog.OodaTrainerWellFormed | src/data/scenarios.ts:32-140 | The OODA trainer has steps. Every step has an option, all scores are in 0..100, option texts are distinct within each step, and step ids are distinct. Every step has a 20-second limit. |
| Catalog.OodaPerfectScore | src/data/scenarios.ts:39-138 | Every OODA step offers an option worth the full 100 points that the player budgets per step. |
| Catalog.OodaTrainerShape | src/data/scenarios.ts:32-140 | The OODA trainer has exactly four steps, with phases Observe, Orient, Decide and Act in that order. |
| EventLog.ReadLog | src/utils/logging.ts:9-16 | Reading never fails. A stored array reads as exactly that array. An absent key, corrupt data and non-array data all read as the empty log. |
| EventLog.ReadLogOnlyLogKey | src/utils/logging.ts:1-11 | Reading depends only on the fixed log key. Storages that agree on that key read the same log. |
| EventLog.PushLog | src/utils/logging.ts:18-25 | A successful append reads back as the old log followed by the event, stored as a valid array. A failed write leaves storage exactly as it was. No key other than the log key changes. |
| EventLog.PushLogAppends | src/utils/logging.ts:18-21 | After a successful append the event is last and the old log is everything before it. After a failed append the log reads as before. |
| EventLog.PushOntoDamagedLog | src/utils/logging.ts:9-21 | Appending onto corrupt or non-array data leaves exactly the one new event. |
| EventLog.PushLogExtends | src/utils/logging.ts:18-25 | Whether the write succeeds or fails, the old log is a prefix of the new one. |
| EventLog.ClearLog | src/utils/logging.ts:27-33 | A successful clear removes the key, so the log reads empty. A failed clear changes nothing and is silent. No other key changes. |
| EventLog.ClearThenRead | src/utils/logging.ts:27-33 | A successful clear followed by a read gives the empty log. A failed clear leaves the log readable as before. |
| Text.Trim | src/components/TeamSession.tsx:62 | JavaScript `trim`: the result is the slice of the input between its leading and trailing ECMAScript whitespace. Only whitespace is dropped, and a non-empty result starts and ends with a non-whitespace character. |
| Text.TrimEmptyIffBlank | src/components/TeamSession.tsx:58 | `input.trim()` is empty exactly when the input is whitespace only (both directions). |
| Player.Enter | src/components/ScenarioPlayer.tsx:20-28 | Entering step `i` puts that step on screen with no option chosen and the countdown at the step's limit, or no countdown if the step has no limit. An index past the end leaves the state untouched. For a well-formed scenario the result is a reachable state. |
| Player.Start | src/components/ScenarioPlayer.tsx:17-28 | The player starts at index 0. It has a step on screen exactly when the scenario has steps. That step is the first one, with no option chosen and the countdown at the step's full limit, or no countdown if it has none. A well-formed scenario starts in a reachable state. |
| Player.Tick | src/components/ScenarioPlayer.tsx:30-50 | A pending tick lowers the countdown by exactly one second. A countdown at 0 or below, or no countdown, is left unchanged. The step, the choice and the index never change. |
| Player.Countdown | src/components/ScenarioPlayer.tsx:31-50 | From `n` seconds, `k <= n` ticks leave `n - k`, and more ticks leave 0, never negative. No timer is pending once the countdown reaches 0. Ticks never choose an option or advance. |
| Player.Ticks | src/components/ScenarioPlayer.tsx:31-50 | Any number of ticks keeps the index, the step on screen and its choice. A step with a countdown keeps one, and a step without one never gains one. |
| Player.TickPreservesInv | src/components/ScenarioPlayer.tsx:36-46 | A tick keeps the countdown between 0 and the step's limit. |
| Player.Select | src/components/ScenarioPlayer.tsx:56-77 | Once an option is chosen, a further choice changes nothing and logs nothing. Otherwise the choice is recorded whatever the countdown shows. Exactly one `scenario_choice` event with `{scenarioId, stepId, option}` is appended, unless the write fails silently. Only the log key is touched. |
| Player.SelectPreservesInv | src/components/ScenarioPlayer.tsx:129-140 | Choosing one of the step's own options, which are the only buttons offered, keeps the state reachable. |
| Player.Next | src/components/ScenarioPlayer.tsx:79-85 | Next needs a chosen option. Before the last step it enters step `i + 1` afresh. On the last step it finishes. |
| Player.NextPreservesInv | src/components/ScenarioPlayer.tsx:79-85 | For a well-formed scenario, Next raises the index by exactly one, keeps it below the step count and lands in a reachable state. |
| Player.NextLabelMatches | src/components/ScenarioPlayer.tsx:158-166 | The button reads "Finish" exactly when pressing it ends the scenario. |
| Player.NextLabel | src/components/ScenarioPlayer.tsx:164 | The caption is "Finish" exactly when the current index is the last step or past it, and "Next step" otherwise. |
| Player.UpTo | src/components/ScenarioPlayer.tsx:87-97 | `slice(0, index + 1)` keeps the first `index + 1` steps, clamped to the step count. |
| Player.SumMatching | src/components/ScenarioPlayer.tsx:87-94 | The reduction gives 0 before a choice and 0 when no step so far carries the current id; with a non-negative score it is never negative. |
| Player.ScoreSum | src/components/ScenarioPlayer.tsx:87-94 | `scoreSum` is 0 before a choice; after one it is the chosen score times the number of steps so far that carry the current step's id. |
| Player.MaxScore | src/components/ScenarioPlayer.tsx:95-97 | The maximum is 100 per step up to the current one. It equals `100 * (index + 1)` for an index on a step, and it is 0 only for a scenario without steps. |
| Player.RoundHalfUp | src/components/ScenarioPlayer.tsx:98 | `Math.round` of a quotient: the result is within one half of the exact value, with halves rounded up. |
| Player.Percent | src/components/ScenarioPlayer.tsx:98 | The percentage is `scoreSum * 100 / maxScore` rounded half up. It is absent exactly where the source would divide by zero. |
| Player.FeedbackPanel | src/components/ScenarioPlayer.tsx:148-156 | Feedback, step score and overall percentage are shown exactly when an option is chosen, and they are that option's feedback and score. |
| Player.SumMatchingIsCount | src/components/ScenarioPlayer.tsx:87-94 | The score reduction equals the number of steps so far whose id matches the current step's id, times the chosen score. |
| Player.CountIdDistinct | src/data/scenarios.ts:34-116 | With distinct step ids, every step's id occurs exactly once. |
| Player.OverallIsCurrentStepOnly | src/components/ScenarioPlayer.tsx:87-98 | In a well-formed scenario, `scoreSum` is the current step's chosen score, or 0 if none is chosen. `maxScore` is `100 * (index + 1)`, so "Overall" is `round(score / (index + 1))`. Earlier choices do not count. |
| Player.ScoreSumInRange | src/components/ScenarioPlayer.tsx:87-97 | With the chosen score in 0..100, `scoreSum` lies between 0 and `maxScore`, even if step ids repeat. |
| Player.PercentInRange | src/components/ScenarioPlayer.tsx:87-98 | With scores in 0..100, "Overall" lies in 0..100, even if step ids were to repeat. |
| Player.OodaRun | src/components/ScenarioPlayer.tsx:56-85 | Choosing the 100, 40, 100 and 20 point options walks the OODA trainer through its four steps and ends with Finish. The log gains the four `scenario_choice` events, in order, after what it held before. |
| Player.OodaOverallExample | src/components/ScenarioPlayer.tsx:87-98 | On that run, "Overall" reads 100% on the first step and 5% on the last. |
| Team.Receive | src/components/TeamSession.tsx:28-35 | A marker message appends exactly that marker and leaves chat alone. A chat message appends exactly that message and leaves markers alone. Any other message changes nothing. |
| Team.Post | src/components/TeamSession.tsx:49 | A post adds the message to the outbox when the channel exists and is skipped otherwise. |
| Team.InitialTab | src/components/TeamSession.tsx:18-21 | A tab opens with no markers, no chat and an empty input box, in the "Trainee" role, which is one of the roles the selector offers (lines 99-102). |
| Team.SendMarker | src/components/TeamSession.tsx:42-55 | The marker with the given id and coordinates is appended locally, posted once (if there is a channel) and logged once as a `marker` event with payload `{marker}`. Chat, input and role are unchanged, and no storage key other than the log's changes. |
| Team.SendChat | src/components/TeamSession.tsx:57-73 | Whitespace-only input is a no-op: no state change, no post, no log, and the input is kept. Other input appends a message from the current role with the trimmed, non-empty text, posts it, logs it as a `chat` event, and clears the input. In both cases no storage key other than the log's changes. |
| Team.Apply | src/components/TeamSession.tsx:17-73 | Every tab action keeps the old markers and chat as prefixes, adds at most one entry, and only extends the outbox and the readable log. |
| Team.RunAppendOnly | src/components/TeamSession.tsx:31-65 | Over any sequence of actions, the markers, chat, outbox and readable log are append-only: earlier entries are never removed or reordered. |
| Team.Run | src/components/TeamSession.tsx:17-73 | Running actions in order never opens or closes the channel, and adds at most one marker or chat line per action. |
| Team.MarkerReachesOtherTab | src/components/TeamSession.tsx:28-49 | A marker dropped in tab A is in A's list at once, exactly once. A tab B that receives A's post gains the same marker. |
| Team.ChatReachesOtherTab | src/components/TeamSession.tsx:28-66 | The same holds for a chat line: A shows it once, and B shows it after delivery. |
| Team.NoChannelStillLocal | src/components/TeamSession.tsx:48-54 | Without a channel the marker is still shown and logged locally; only the post is skipped. |
| Solo.FirstMatch | src/components/SoloScenario.tsx:10 | Gives the position of the first scenario with the id, or none exactly when no scenario has it. |
| Solo.Find | src/components/SoloScenario.tsx:10 | Lookup returns the first catalog scenario with the id. It returns None exactly when no scenario has it. |
| Solo.FindDistinct | src/components/SoloScenario.tsx:10 | With distinct ids, looking up a scenario's id finds that scenario. |
| Solo.SoloScreen | src/components/SoloScenario.tsx:9-14 | If no scenario has the OODA id, nothing is rendered and no player starts. Otherwise the player starts on exactly the scenario found. |
| Solo.CatalogLookup | src/components/SoloScenario.tsx:10-11 | Against the shipped catalog, the OODA id finds the OODA trainer and every other id finds nothing. |
| Solo.SoloPlaysOoda | src/components/SoloScenario.tsx:10-13 | Solo mode always plays the OODA trainer, starting on its first step in a reachable state. |

## Left out

- Rendering, CSS and routing are not modelled: the JSX, the menu, and the after-action review screen. The review screen only calls `readLog` and `clearLog`.
- The scenario library (src/components/ScenarioLibrary.tsx:10-21) is not modelled as a screen of its own. Picking a scenario there starts the player on it, and its `onBack` clears the pick. That is a second caller of the same player: `Player.Start` on any scenario of the catalog covers it, just as `Solo.SoloScreen` covers the solo caller.
- The "Back" button and the `onBack` callback are not modelled. Finishing is the `Finished` outcome of `Player.Next`; what the caller does next is routing.
- The broadcast transport is not modelled: cross-tab delivery order, and closing the channel on unmount. It is concurrency in a browser API, so posts are an outbox and delivery is an explicit `Receive`.
- The read-modify-write race on the log between tabs is not modelled. Each append is atomic here.
- JSON encoding and decoding are not modelled. A stored value is its parse result (`Slot`).
- A valid array's elements are taken to be log events. The source does not check them.
- A stored empty string reads as the empty log, like an absent key. Only `PushLog` writes the key, and it never writes an empty string, so this case is folded into "absent".
- Timer scheduling (`setTimeout`, effect cleanup) is not modelled: a tick is an explicit transition. `Player.TickArmed` says when a timer would be pending.
- `Player.Next`: the one render after `setIndex`, before the entry effect runs, is not modelled. In that render the new index shows next to the previous step's state. Next is modelled as the index change followed by the step entry.
- Clock readings and generated ids (`Date.now()`, `Math.random()`) are not modelled; they are parameters.
- Board coordinates are `real` values taken as given. Computing them from click geometry is not modelled.
- Time limits and scores are integers. Fractional seconds, and IEEE arithmetic in the score sum, are not modelled.
- Player.RoundHalfUp: exact rational rounding. It does not model the floating-point error of `Math.round((scoreSum / maxScore) * 100)`; the catalog's scores never produce a tie.
- The `vite.config.ts` build configuration is not part of this model.
