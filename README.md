# Basketball drill trainer: round and statistics model

This project models the logic of the drill trainer's single React component, `App`, in Dafny. Each round, the trainer picks a prompt (court spot, start type, finishing action) from three fixed vocabularies. It announces the prompt as three utterances with pauses between them, then opens a ten-second response window. In that window the player reports a make or a miss with a button or by voice. If nothing is reported, the timeout records a miss. The result is added to running statistics, overall and per action, and the next round is queued.

The model has these parts:

- `Vocabulary`: the three vocabularies, `pickRandom` as `Math.floor(u * n)` for a draw `u` in [0, 1), and the prompt built from three such picks.
- `Statistics`: the stats record `{ total, makes, actions }`, `updateStats`, `resetStats`, and the invariant they keep. The invariant is: makes never exceed attempts, and the session totals are the sums over the per-action tallies. `Replay` is a reference definition that folds a sequence of outcomes into the record; after a reset, it yields the plain counts of those outcomes.
- `Transcript`: the voice rule. The transcript is lower-cased. A transcript containing "make" is a make, even when it also contains "miss". Otherwise one containing "miss" is a miss. Any other transcript records nothing.
- `Countdown`: the `setTimer` updater for each one-second tick, and what ten ticks from ten seconds do.
- `SessionMachine`: the component's state as a value (`State`) and one `Event` per browser callback or button. `Enabled` says when an event can occur: a timer's callback while that timer is live, a button press while the button is rendered (Start while idle, Pause while running, Make/Miss while the window is shown). `Next` gives the effect of an event. `Run` and `Outcomes` cover sequences of events. Timers carry browser-style ids. `clearTimeout` and `clearInterval` cancel only the timer whose id the ref holds.
- `Session`: class `Trainer`. Its fields are the component's state values and refs. Each method is one handler and updates the fields in place. Each method's contract says its new state is exactly `Next` of the old state for its event.
- `Scenarios`: client runs of `Trainer` through whole rounds, with the statistics each run ends with.

The model follows the code as written. The code behaves differently from an idealised round design in four ways, and the model keeps all four:

- There is no per-round "resolved" latch. Every call of `handleManualStat` records one stat. A button press hides both buttons, so a second press cannot follow in the same window (`MarkHidesButtons`). A recognition result arriving after the press still records a second stat (`SecondSignalRecordsAgain`, `MarkThenVoiceRound`), and so would a timeout left live by an earlier, overlapping window. Resolving a round does clear the window's own timeout, so that timeout cannot record a second time (`ResolvedRoundTimeoutCancelled`).
- `handlePause` does not cancel an announcement that is still playing. The window still opens after a pause, and its timeout records a miss while the session is paused (`PauseDuringAnnouncement`).
- `handlePause` leaves the Make/Miss buttons visible (`PauseEffect`, `PauseWhileListening`).
- The 1000 ms callback that starts the next round tests the `isRunning` value from the moment `handleManualStat` ran. A pause during that second therefore does not stop the next round (`nextRounds`, `NextRoundElapsed`).

## Model

| member | source | states |
|---|---|---|
| Vocabulary.PickIndex | src/App.js:112 | `Math.floor(u * n)` for `u` in [0, 1) is an index below `n` |
| Vocabulary.EveryIndexReachable | src/App.js:112 | every index below `n` is picked by some draw, so no entry is excluded |
| Vocabulary.PickRandom | src/App.js:112 | `pickRandom` returns an element of the array, the one at the picked index |
| Vocabulary.GeneratePrompt | src/App.js:75-77 | the spot, start type and action picked by `startRound` each belong to their vocabulary |
| Vocabulary.EveryPromptReachable | src/App.js:11-21 | every combination of the three vocabularies is generated by some three draws |
| Statistics.UpdateStats | src/App.js:122-136 | `total` goes up by 1 and `makes` by 1 exactly for a make; the action's tally, created at zero if absent, goes up the same way; the key set grows by that action only; every other action's tally is unchanged |
| Statistics.ResetStats | src/App.js:70-72 | the reset record is all zero with no tallies, and it satisfies the stats invariant |
| Statistics.UpdateStatsValid | src/App.js:122-136 | `updateStats` keeps the invariant: every tally has makes at most total, and the session totals equal the sums of the per-action totals and makes |
| Statistics.StatsValidBounded | src/App.js:126-131 | under the invariant, session makes are at most session total, and the same holds per action |
| Statistics.SumRemove | src/App.js:128-134 | the sum over the tallies splits at any action |
| Statistics.SumUpdate | src/App.js:128-134 | replacing one action's tally changes the sum by the difference of that tally alone |
| Statistics.ReplayValid | src/App.js:122-136 | any sequence of updates keeps the stats invariant |
| Statistics.ReplayFromReset | src/App.js:70-72 | after a reset, recorded outcomes give total = their number, makes = the number of makes, an entry exactly for each action attempted, and each entry the makes and attempts for that action |
| Statistics.UpdateStatsCommute | src/App.js:122-136 | two updates in either order give the same record |
| Transcript.LowerChar | src/App.js:59 | the result is never an upper-case letter; an upper-case letter becomes a lower-case one; nothing but upper-case letters changes |
| Transcript.ToLower | src/App.js:59 | `toLowerCase()` keeps the length and lower-cases each character in place |
| Transcript.ToLowerIdempotent | src/App.js:59 | lower-casing twice equals lower-casing once |
| Transcript.Includes | src/App.js:60-62 | `includes(p)` is true exactly when `p` occurs at some position |
| Transcript.Classify | src/App.js:58-65 | make exactly when the lower-cased transcript contains "make"; miss exactly when it contains "miss" but not "make"; nothing exactly when it contains neither |
| Transcript.MentionsAnyCase | src/App.js:59-62 | a word in any letter case, such as "MAKE", counts as its lower-case form |
| Transcript.ClassifyMissWord | src/App.js:59-63 | the transcript "Miss" records a miss |
| Transcript.ClassifyIgnoresCase | src/App.js:59 | classifying the lower-cased transcript gives the same outcome |
| Countdown.Tick | src/App.js:93-99 | the updater never yields a negative value; it yields `max(prev - 1, 0)` |
| Countdown.TickStopsAtZero | src/App.js:94-96 | the updater yields 0 exactly when `prev <= 1`, the branch in which it also clears the interval |
| Countdown.TicksSaturate | src/App.js:92-100 | `n` ticks from `t >= 0` give `max(t - n, 0)` |
| Countdown.CountdownFromWindow | src/App.js:89-100 | from 10, the timer is `10 - n` after `n < 10` ticks and reaches 0 exactly at the tenth tick; it stays 0 after that |
| SessionMachine.InitialInv | src/App.js:24-33 | the first render's state satisfies the invariant |
| SessionMachine.NextPreservesInv | src/App.js:35-150 | every event keeps the invariant: valid stats, timer in 0..10, prompt fields blank or from the vocabularies, stats keyed only by such actions, timer ids below the next id |
| SessionMachine.StatsOnlyByRecording | src/App.js:35-47 | apart from a reset, an event changes the stats only by the single update for its outcome (button, timeout miss, classified transcript) and the current action |
| SessionMachine.ManualStatEffect | src/App.js:35-47 | `handleManualStat`, whichever caller runs it, clears the ref'd timeout and countdown, sets timer 0, hides the buttons, records one stat and queues a next-round callback carrying the current `isRunning` |
| SessionMachine.MarkHidesButtons | src/App.js:41 | a button press is `handleManualStat`, and it hides the buttons, so no second press can follow in that window |
| SessionMachine.SecondSignalRecordsAgain | src/App.js:35-47 | a classified transcript after a button press in the same round records a second stat: there is no latch |
| SessionMachine.ResolvedRoundTimeoutCancelled | src/App.js:37 | once `handleManualStat` cancels the round's only timeout, no timeout can fire |
| SessionMachine.TimeoutRecordsMiss | src/App.js:102-104 | the timeout records a miss for the current action: total up by 1, makes unchanged |
| SessionMachine.UnclassifiedTranscriptIgnored | src/App.js:58-65 | a transcript without "make" or "miss" leaves the whole state unchanged |
| SessionMachine.TranscriptCallsManualStat | src/App.js:58-65 | a transcript with "make" runs `handleManualStat(true)`; otherwise one with "miss" runs `handleManualStat(false)` |
| SessionMachine.PauseEffect | src/App.js:144-150 | pause while running: not running, timer 0, ref'd timeout and countdown cancelled, stats unchanged; chains in flight and the buttons are left as they were |
| SessionMachine.StartEffect | src/App.js:139-142 | start while idle: running, a prompt from the vocabularies shown, its announcement begun with the spot, stats unchanged |
| SessionMachine.WindowOpens | src/App.js:87-104 | the end of the action utterance shows the buttons, sets 10 seconds, and adds one fresh live countdown and one fresh live timeout, both held in the refs |
| SessionMachine.AnnouncementAdvances | src/App.js:83-109 | earlier utterance ends and pauses only move their chain to the next phase: spot, pause, start type, pause, action |
| SessionMachine.TickIsTickState | src/App.js:92-100 | any live interval's callback applies the updater and clears the ref'd interval when the updater yields 0 |
| SessionMachine.TickRunFacts | src/App.js:92-100 | from `t` seconds, the ref'd interval stays live for `t - 1` ticks and stops itself at the `t`-th tick, when the timer reaches 0 |
| SessionMachine.WindowCountsDown | src/App.js:88-100 | after the window opens, nine ticks leave 1 second with the interval live; the tenth gives 0 and stops it |
| SessionMachine.RunPreservesInv | src/App.js:24-150 | every state reached by any sequence of events satisfies the invariant |
| SessionMachine.RunReplaysOutcomes | src/App.js:35-47 | without a reset, the stats after a run are the earlier stats with the run's recorded outcomes replayed, one per resolving event |
| SessionMachine.SessionCountsOutcomes | src/App.js:28 | from the first render, total is the number of recorded outcomes and makes is the number of made ones |
| Session.Trainer.constructor | src/App.js:24-33 | the initial state: idle, blank prompt, zero stats, no timers |
| Session.Trainer.StartRound | src/App.js:74-83 | sets the picked prompt and starts its announcement chain |
| Session.Trainer.HandleStart | src/App.js:139-142 | from idle, sets running, then starts a round |
| Session.Trainer.OpenWindow | src/App.js:88-104 | shows the buttons, sets the timer to 10, and starts one interval and one timeout under fresh ids, keeping the invariant |
| Session.Trainer.SpeechEnded | src/App.js:83-109 | an utterance's end moves its chain on; the action's end removes the chain and opens the window |
| Session.Trainer.PauseElapsed | src/App.js:84-86 | the pause after the spot or the start type elapsed: the next utterance starts |
| Session.Trainer.CountdownTick | src/App.js:92-100 | applies the updater to the timer and clears the ref'd interval at `prev <= 1` |
| Session.Trainer.HandleManualStat | src/App.js:35-47 | the state `handleManualStat` leaves, which is the Make/Miss button event's effect while the buttons are shown, and the invariant kept |
| Session.Trainer.ResponseTimeout | src/App.js:102-104 | the fired timeout is gone and `handleManualStat(false)` has run |
| Session.Trainer.TranscriptHeard | src/App.js:58-65 | runs `handleManualStat` with the classified outcome, or does nothing |
| Session.Trainer.NextRoundElapsed | src/App.js:42-46 | the oldest queued callback fires and starts a round if the `isRunning` it carries is true |
| Session.Trainer.HandlePause | src/App.js:144-150 | while running, the state `handlePause` leaves, and the invariant kept |
| Session.Trainer.ResetStats | src/App.js:70-72 | replaces the stats with the zero record and changes nothing else |
| Scenarios.OpenRound | src/App.js:139-142 | start plus a finished announcement leaves the window open with 10 seconds, live timers and zero stats |
| Scenarios.ManualMakeRound | src/App.js:35-47 | a marked make gives `{ total: 1, makes: 1, actions: { action: { makes: 1, total: 1 } } }` and queues the next round |
| Scenarios.TimeoutRound | src/App.js:102-104 | an unanswered window gives `{ total: 1, makes: 0, actions: { action: { makes: 0, total: 1 } } }` |
| Scenarios.MarkThenVoiceRound | src/App.js:35-65 | a pressed make followed by the transcript "Miss" in the same round gives `{ total: 2, makes: 1 }` with the action's tally at 1 of 2 |
| Scenarios.PauseDuringAnnouncement | src/App.js:144-150 | pausing during the announcement still lets the timeout record a miss; the queued callback carries `false` |
| Scenarios.PauseWhileListening | src/App.js:144-150 | pausing during the window records nothing, cancels its timeout and leaves the buttons shown |

## Left out

- Rendering: JSX, icons, layout and `formatStatsLine` (src/App.js:152-213) are presentation only.
- Speech output: `speak` and `SpeechSynthesisUtterance` (src/App.js:114-120) are not modelled. An utterance's completion is the `SpeechEnded` event. If speech output is missing, `onend` never fires and the chain stalls; the model then simply has no event.
- Speech input: `webkitSpeechRecognition` setup, start and stop (src/App.js:49-57, 67, 90, 146) are not modelled, and neither is the recognition ref. A recognised phrase is the `TranscriptHeard` event, with the first alternative's text as its argument. The event can arrive in any state.
- Time: the 3000 ms, 2500 ms, 1000 ms and 10000 ms delays and the 1000 ms interval are not modelled as durations. Each firing is an event. The model does not order timers with different delays against each other; for example, the tenth tick and the timeout may come in either order. Queued next-round callbacks all have the same delay, so they fire oldest first.
- Randomness: `Math.random()` is a real draw in [0, 1) supplied by the caller. Double-precision rounding of `u * n` is not modelled.
- React closures and batching: the timeout callback calls `handleManualStat` from the render in which `startRound` was created, so in the browser it can see an older `currentAction` and `isRunning`. The model uses the state at the time of the event. `setState` batching is also not modelled: each handler's updates take effect at once.
- Transcript.ToLower: lower-cases only the ASCII letters A-Z, not the full Unicode mapping of `toLowerCase`.
- Statistics.UpdateStats: counters are unbounded naturals, not JavaScript doubles, which lose exactness beyond 2^53.
- JavaScript object quirks of `stats.actions`, such as inherited keys like `__proto__`, and the display order of `Object.entries` are not modelled.
