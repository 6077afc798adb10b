/**
 * The round and session logic of the `App` component (src/App.js lines 24-47,
 * 74-110 and 139-150) as a pure transition function on the component's
 * state. Each browser callback (speech end, a timer firing, a recognised
 * phrase, a button press) is one `Event`; `Next` is its effect. The class in
 * module Session runs these events imperatively.
 *
 * Timers carry ids as in the browser: `setInterval`/`setTimeout` hand out
 * fresh positive ids, the refs hold the last id stored (0 stands for the
 * initial `null`), and `clearInterval`/`clearTimeout` cancel only the timer
 * the ref names.
 */
module SessionMachine {
  import opened Wrappers
  import opened Vocabulary
  import opened Statistics
  import opened Countdown
  import Transcript

  /** Where an announcement chain (src/App.js lines 83-109) stands. */
  datatype Phase =
    | SpeakingSpot           // the spot is being spoken
    | PausingAfterSpot       // the 3000 ms pause after the spot
    | SpeakingStartType      // the start type is being spoken
    | PausingAfterStartType  // the 2500 ms pause after the start type
    | SpeakingAction         // the action is being spoken; the end of it opens the window

  /** One announcement chain in flight, with the prompt its closures captured. */
  datatype Announcement = Announcement(prompt: Prompt, phase: Phase)

  datatype State = State(
    isRunning: bool,
    showButtons: bool,
    timer: int,
    currentSpot: string,
    currentStartType: string,
    currentAction: string,
    stats: Stats,
    announcements: seq<Announcement>,   // chains started and not yet finished
    intervals: set<nat>,                // live countdown intervals
    countdownRef: nat,                  // countdownRef.current
    timeouts: set<nat>,                 // live ten-second timeouts
    timeoutRef: nat,                    // timeoutRef.current
    nextRounds: seq<bool>,              // pending 1000 ms callbacks, each with the isRunning it tests
    nextTimerId: nat)                   // the id the next timer gets

  /** The browser callbacks and user commands that drive the component. */
  datatype Event =
    | Start(uSpot: real, uStart: real, uAction: real)            // Start button (shown while idle)
    | SpeechEnded(chain: nat)                                     // an utterance's onend
    | PauseElapsed(chain: nat)                                    // a pause between two utterances elapsed
    | CountdownTick(interval: nat)                                // a countdown interval fired
    | ResponseTimeout(timeout: nat)                               // a ten-second timeout fired
    | Mark(made: bool)                                            // Make or Miss button (shown with the window)
    | TranscriptHeard(text: string)                               // recognition.onresult
    | NextRoundElapsed(uSpot: real, uStart: real, uAction: real)  // the 1000 ms callback fired
    | Pause                                                       // Pause button (shown while running)
    | Reset                                                       // Reset Stats button

  /** The state after the first render (src/App.js lines 24-33). */
  function Initial(): State {
    State(false, false, 0, "", "", "", ResetStats(), [], {}, 0, {}, 0, [], 1)
  }

  predicate IsDraw(u: real) {
    0.0 <= u < 1.0
  }

  predicate IsSpeaking(p: Phase) {
    p == SpeakingSpot || p == SpeakingStartType || p == SpeakingAction
  }

  /** The phase that follows `p` in a chain (the last phase has none). */
  function NextPhase(p: Phase): Phase
    requires p != SpeakingAction
  {
    match p
    case SpeakingSpot => PausingAfterSpot
    case PausingAfterSpot => SpeakingStartType
    case SpeakingStartType => PausingAfterStartType
    case PausingAfterStartType => SpeakingAction
  }

  /**
   * When the event can occur: a timer's callback only while that timer is live,
   * an utterance's end or a pause only at the matching phase of its chain, and a
   * button press only while the button is rendered (src/App.js lines 164-168 and
   * 189-194). The Reset Stats button is always rendered; a recognition result
   * can arrive at any time.
   */
  predicate Enabled(s: State, e: Event) {
    match e
    case Start(a, b, c) => !s.isRunning && IsDraw(a) && IsDraw(b) && IsDraw(c)
    case SpeechEnded(i) => i < |s.announcements| && IsSpeaking(s.announcements[i].phase)
    case PauseElapsed(i) => i < |s.announcements| && !IsSpeaking(s.announcements[i].phase)
    case CountdownTick(id) => id in s.intervals
    case ResponseTimeout(id) => id in s.timeouts
    case Mark(_) => s.showButtons
    case TranscriptHeard(_) => true
    case NextRoundElapsed(a, b, c) => |s.nextRounds| > 0 && IsDraw(a) && IsDraw(b) && IsDraw(c)
    case Pause => s.isRunning
    case Reset => true
  }

  /** `startRound`: pick a prompt, show it, and start its announcement chain (src/App.js lines 74-83). */
  function StartRound(s: State, uSpot: real, uStart: real, uAction: real): State
    requires IsDraw(uSpot) && IsDraw(uStart) && IsDraw(uAction)
  {
    var p := GeneratePrompt(uSpot, uStart, uAction);
    s.(currentSpot := p.spot, currentStartType := p.startType, currentAction := p.action,
       announcements := s.announcements + [Announcement(p, SpeakingSpot)])
  }

  /** The last utterance's onend: show the buttons, set ten seconds, start the interval and the timeout (src/App.js lines 88-104). */
  function OpenWindow(s: State): State {
    var interval := s.nextTimerId;
    var timeout := s.nextTimerId + 1;
    s.(showButtons := true, timer := WindowSeconds,
       intervals := s.intervals + {interval}, countdownRef := interval,
       timeouts := s.timeouts + {timeout}, timeoutRef := timeout,
       nextTimerId := s.nextTimerId + 2)
  }

  /** One run of the countdown interval's callback (src/App.js lines 92-100). */
  function TickState(s: State): State {
    s.(timer := Tick(s.timer),
       intervals := if s.timer <= 1 then s.intervals - {s.countdownRef} else s.intervals)
  }

  /** `handleManualStat(made)` (src/App.js lines 35-47). */
  function ManualStat(s: State, made: bool): State {
    s.(timeouts := s.timeouts - {s.timeoutRef},
       intervals := s.intervals - {s.countdownRef},
       timer := 0,
       stats := UpdateStats(s.stats, s.currentAction, made),
       showButtons := false,
       nextRounds := s.nextRounds + [s.isRunning])
  }

  /** `handlePause` (src/App.js lines 144-150). */
  function PauseState(s: State): State {
    s.(isRunning := false,
       timeouts := s.timeouts - {s.timeoutRef},
       intervals := s.intervals - {s.countdownRef},
       timer := 0)
  }

  function RemoveAt(xs: seq<Announcement>, i: nat): seq<Announcement>
    requires i < |xs|
  {
    xs[..i] + xs[i + 1..]
  }

  /** The effect of one event. */
  function Next(s: State, e: Event): State
    requires Enabled(s, e)
  {
    match e
    case Start(a, b, c) => StartRound(s.(isRunning := true), a, b, c)
    case SpeechEnded(i) =>
      var an := s.announcements[i];
      if an.phase == SpeakingAction then OpenWindow(s.(announcements := RemoveAt(s.announcements, i)))
      else s.(announcements := s.announcements[i := an.(phase := NextPhase(an.phase))])
    case PauseElapsed(i) =>
      var an := s.announcements[i];
      s.(announcements := s.announcements[i := an.(phase := NextPhase(an.phase))])
    case CountdownTick(_) => TickState(s)
    case ResponseTimeout(id) => ManualStat(s.(timeouts := s.timeouts - {id}), false)
    case Mark(made) => ManualStat(s, made)
    case TranscriptHeard(text) =>
      var heard := Transcript.Classify(text);
      if heard.Some? then ManualStat(s, heard.value) else s
    case NextRoundElapsed(a, b, c) =>
      var rest := s.(nextRounds := s.nextRounds[1..]);
      if s.nextRounds[0] then StartRound(rest, a, b, c) else rest
    case Pause => PauseState(s)
    case Reset => s.(stats := ResetStats())
  }

  predicate BlankOr(x: string, vocabulary: seq<string>) {
    x == "" || x in vocabulary
  }

  /** What holds in every reachable state. */
  ghost predicate Inv(s: State) {
    && StatsValid(s.stats)
    && 0 <= s.timer <= WindowSeconds
    && BlankOr(s.currentSpot, Spots)
    && BlankOr(s.currentStartType, StartTypes)
    && BlankOr(s.currentAction, Actions)
    && (forall a :: a in s.stats.actions ==> BlankOr(a, Actions))
    && (forall k :: 0 <= k < |s.announcements| ==> InVocabulary(s.announcements[k].prompt))
    && 0 < s.nextTimerId
    && s.countdownRef < s.nextTimerId
    && s.timeoutRef < s.nextTimerId
    && (forall id :: id in s.intervals ==> 0 < id < s.nextTimerId)
    && (forall id :: id in s.timeouts ==> 0 < id < s.nextTimerId)
  }

  lemma InitialInv()
    ensures Inv(Initial())
  {
  }

  lemma StartRoundInv(s: State, a: real, b: real, c: real)
    requires Inv(s) && IsDraw(a) && IsDraw(b) && IsDraw(c)
    ensures Inv(StartRound(s, a, b, c))
  {
    var p := GeneratePrompt(a, b, c);
    var r := StartRound(s, a, b, c);
    assert forall k :: 0 <= k < |r.announcements| ==>
      r.announcements[k] == (if k < |s.announcements| then s.announcements[k] else Announcement(p, SpeakingSpot));
  }

  lemma ManualStatInv(s: State, made: bool)
    requires Inv(s)
    ensures Inv(ManualStat(s, made))
  {
    UpdateStatsValid(s.stats, s.currentAction, made);
  }

  lemma RemoveChainInv(s: State, i: nat)
    requires Inv(s) && i < |s.announcements|
    ensures Inv(s.(announcements := RemoveAt(s.announcements, i)))
  {
    var rest := RemoveAt(s.announcements, i);
    assert forall k :: 0 <= k < |rest| ==> rest[k] == s.announcements[if k < i then k else k + 1];
  }

  lemma OpenWindowInv(s: State)
    requires Inv(s)
    ensures Inv(OpenWindow(s))
  {
  }

  lemma AdvanceInv(s: State, i: nat)
    requires Inv(s) && i < |s.announcements| && s.announcements[i].phase != SpeakingAction
    ensures var an := s.announcements[i];
            Inv(s.(announcements := s.announcements[i := an.(phase := NextPhase(an.phase))]))
  {
  }

  lemma TickInv(s: State)
    requires Inv(s)
    ensures Inv(TickState(s))
  {
  }

  lemma PauseInv(s: State)
    requires Inv(s)
    ensures Inv(PauseState(s))
  {
  }

  /** Every event keeps the invariant. */
  lemma NextPreservesInv(s: State, e: Event)
    requires Inv(s) && Enabled(s, e)
    ensures Inv(Next(s, e))
  {
    match e
    case Start(a, b, c) => StartRoundInv(s.(isRunning := true), a, b, c);
    case SpeechEnded(i) =>
      if s.announcements[i].phase == SpeakingAction {
        RemoveChainInv(s, i);
        OpenWindowInv(s.(announcements := RemoveAt(s.announcements, i)));
      } else {
        AdvanceInv(s, i);
      }
    case PauseElapsed(i) => AdvanceInv(s, i);
    case CountdownTick(_) => TickInv(s);
    case ResponseTimeout(id) => ManualStatInv(s.(timeouts := s.timeouts - {id}), false);
    case Mark(made) => ManualStatInv(s, made);
    case TranscriptHeard(text) =>
      var heard := Transcript.Classify(text);
      if heard.Some? { ManualStatInv(s, heard.value); }
    case NextRoundElapsed(a, b, c) =>
      if s.nextRounds[0] { StartRoundInv(s.(nextRounds := s.nextRounds[1..]), a, b, c); }
    case Pause => PauseInv(s);
    case Reset =>
  }

  // ----- what single events do -----

  /** The outcome an event records, if any: the buttons, the timeout (a miss) and a classified transcript. */
  function Recorded(e: Event): Option<bool> {
    match e
    case Mark(made) => Some(made)
    case ResponseTimeout(_) => Some(false)
    case TranscriptHeard(text) => Transcript.Classify(text)
    case _ => None
  }

  /**
   * Apart from a reset, the stats change only by recording the event's outcome, and then
   * by exactly one update for the current action. No latch guards this: every
   * resolving event records, however many arrive for the same round.
   */
  lemma StatsOnlyByRecording(s: State, e: Event)
    requires Enabled(s, e) && e != Reset
    ensures Next(s, e).stats ==
              if Recorded(e).Some? then UpdateStats(s.stats, s.currentAction, Recorded(e).value) else s.stats
  {
  }

  /**
   * `handleManualStat(made)`, whichever of the buttons, the timeout and a transcript
   * calls it: window closed, timer 0, one stat recorded, next round queued with the
   * current isRunning.
   */
  lemma ManualStatEffect(s: State, made: bool)
    ensures ManualStat(s, made).stats.total == s.stats.total + 1
    ensures ManualStat(s, made).stats.makes == s.stats.makes + Point(made)
    ensures ManualStat(s, made).timer == 0 && !ManualStat(s, made).showButtons
    ensures s.timeoutRef !in ManualStat(s, made).timeouts
    ensures s.countdownRef !in ManualStat(s, made).intervals
    ensures ManualStat(s, made).nextRounds == s.nextRounds + [s.isRunning]
    ensures ManualStat(s, made).isRunning == s.isRunning
    ensures ManualStat(s, made).announcements == s.announcements
  {
  }

  /** A button press is `handleManualStat`, and it unmounts both buttons, so no second press can follow in that window. */
  lemma MarkHidesButtons(s: State, made: bool, again: bool)
    requires Enabled(s, Mark(made))
    ensures Next(s, Mark(made)) == ManualStat(s, made)
    ensures !Enabled(Next(s, Mark(made)), Mark(again))
  {
  }

  /**
   * A recognition result after a button press in the same round records a second stat:
   * there is no resolved latch, only the hidden buttons.
   */
  lemma SecondSignalRecordsAgain(s: State, made: bool, text: string)
    requires s.showButtons
    requires Transcript.Mentions(text, "make") || Transcript.Mentions(text, "miss")
    ensures Next(Next(s, Mark(made)), TranscriptHeard(text)).stats.total == s.stats.total + 2
    ensures Next(Next(s, Mark(made)), TranscriptHeard(text)).stats.makes ==
              s.stats.makes + Point(made) + Point(Transcript.Mentions(text, "make"))
  {
  }

  /** Once a round is resolved, its timeout is cancelled, so it cannot fire a second record. */
  lemma ResolvedRoundTimeoutCancelled(s: State, made: bool)
    requires s.timeouts <= {s.timeoutRef}
    ensures forall id :: !Enabled(ManualStat(s, made), ResponseTimeout(id))
  {
  }

  /** The ten-second timeout records a miss for the current action. */
  lemma TimeoutRecordsMiss(s: State, id: nat)
    requires id in s.timeouts
    ensures Next(s, ResponseTimeout(id)).stats == UpdateStats(s.stats, s.currentAction, false)
    ensures Next(s, ResponseTimeout(id)).stats.makes == s.stats.makes
    ensures Next(s, ResponseTimeout(id)).stats.total == s.stats.total + 1
    ensures id !in Next(s, ResponseTimeout(id)).timeouts
  {
  }

  /** A transcript that is neither a make nor a miss changes nothing. */
  lemma UnclassifiedTranscriptIgnored(s: State, text: string)
    requires !Transcript.Mentions(text, "make") && !Transcript.Mentions(text, "miss")
    ensures Next(s, TranscriptHeard(text)) == s
  {
  }

  /** A classified transcript calls `handleManualStat` with the matching outcome, "make" taking precedence. */
  lemma TranscriptCallsManualStat(s: State, text: string)
    ensures Transcript.Mentions(text, "make") ==> Next(s, TranscriptHeard(text)) == ManualStat(s, true)
    ensures !Transcript.Mentions(text, "make") && Transcript.Mentions(text, "miss") ==>
              Next(s, TranscriptHeard(text)) == ManualStat(s, false)
  {
  }

  /**
   * `handlePause`: not running, timer 0, the referenced countdown and timeout cancelled,
   * and no stat recorded. Announcement chains already started go on, and the
   * buttons stay as they were.
   */
  lemma PauseEffect(s: State)
    requires s.isRunning
    ensures !Next(s, Pause).isRunning && Next(s, Pause).timer == 0
    ensures s.timeoutRef !in Next(s, Pause).timeouts
    ensures s.countdownRef !in Next(s, Pause).intervals
    ensures Next(s, Pause).stats == s.stats
    ensures Next(s, Pause).announcements == s.announcements
    ensures Next(s, Pause).showButtons == s.showButtons
  {
  }

  /** `handleStart`: running, a prompt from the vocabularies shown, and its announcement begun. */
  lemma StartEffect(s: State, a: real, b: real, c: real)
    requires !s.isRunning && IsDraw(a) && IsDraw(b) && IsDraw(c)
    ensures var r := Next(s, Start(a, b, c));
            && r.isRunning
            && InVocabulary(Prompt(r.currentSpot, r.currentStartType, r.currentAction))
            && r.announcements == s.announcements + [Announcement(Prompt(r.currentSpot, r.currentStartType, r.currentAction), SpeakingSpot)]
            && r.stats == s.stats
  {
  }

  /** The end of the action's utterance opens the window: buttons, ten seconds, a fresh live countdown and timeout. */
  lemma WindowOpens(s: State, i: nat)
    requires Inv(s)
    requires i < |s.announcements| && s.announcements[i].phase == SpeakingAction
    ensures var r := Next(s, SpeechEnded(i));
            && r.showButtons && r.timer == WindowSeconds
            && r.countdownRef in r.intervals && r.countdownRef !in s.intervals
            && r.timeoutRef in r.timeouts && r.timeoutRef !in s.timeouts
            && r.intervals == s.intervals + {r.countdownRef}
            && r.timeouts == s.timeouts + {r.timeoutRef}
            && |r.announcements| == |s.announcements| - 1
            && r.stats == s.stats
  {
  }

  /** Earlier utterances and pauses only advance their chain, in the order spot, start type, action. */
  lemma AnnouncementAdvances(s: State, e: Event)
    requires Enabled(s, e)
    requires (e.SpeechEnded? && s.announcements[e.chain].phase != SpeakingAction) || e.PauseElapsed?
    ensures Next(s, e) == s.(announcements := s.announcements[e.chain := s.announcements[e.chain].(
              phase := NextPhase(s.announcements[e.chain].phase))])
  {
  }

  // ----- the countdown inside the machine -----

  /** `n` runs of the countdown callback. */
  function TickRun(s: State, n: nat): State
    decreases n
  {
    if n == 0 then s else TickRun(TickState(s), n - 1)
  }

  /** Any live interval's callback has the same effect: the updater, and `clearInterval` of the ref on reaching 0. */
  lemma TickIsTickState(s: State, id: nat)
    requires id in s.intervals
    ensures Next(s, CountdownTick(id)) == TickState(s)
  {
  }

  /** From `t` seconds, the referenced interval stays live for `t - 1` ticks and stops itself at the `t`-th, when the timer reaches 0. */
  lemma {:induction false} TickRunFacts(s: State, n: nat)
    requires s.countdownRef in s.intervals
    requires n <= s.timer
    ensures TickRun(s, n).timer == s.timer - n
    ensures TickRun(s, n).countdownRef == s.countdownRef
    ensures n < s.timer ==> s.countdownRef in TickRun(s, n).intervals
    ensures 0 < n == s.timer ==> s.countdownRef !in TickRun(s, n).intervals
    ensures TickRun(s, n).stats == s.stats
    decreases n
  {
    if n > 0 {
      if s.timer > 1 {
        TickRunFacts(TickState(s), n - 1);
      } else {
        assert TickRun(s, n) == TickState(s);
      }
    }
  }

  /** After the window opens, ten ticks of its countdown bring the timer to 0 and stop the interval. */
  lemma WindowCountsDown(s: State, i: nat)
    requires Inv(s)
    requires i < |s.announcements| && s.announcements[i].phase == SpeakingAction
    ensures var w := Next(s, SpeechEnded(i));
            && w.countdownRef in TickRun(w, 9).intervals && TickRun(w, 9).timer == 1
            && TickRun(w, 10).timer == 0 && w.countdownRef !in TickRun(w, 10).intervals
  {
    var w := Next(s, SpeechEnded(i));
    TickRunFacts(w, 9);
    TickRunFacts(w, 10);
  }

  // ----- runs of events -----

  /** The state after the events `es` in order, or `None` when one of them cannot occur. */
  function Run(s: State, es: seq<Event>): Option<State>
    decreases |es|
  {
    if es == [] then Some(s)
    else
      var n := |es| - 1;
      var prev := Run(s, es[..n]);
      if prev.Some? && Enabled(prev.value, es[n]) then Some(Next(prev.value, es[n])) else None
  }

  /** The outcomes the events of a run record, in order, each for the action current at the time. */
  function Outcomes(s: State, es: seq<Event>): seq<Outcome>
    requires Run(s, es).Some?
    decreases |es|
  {
    if es == [] then []
    else
      var n := |es| - 1;
      var prev := Run(s, es[..n]).value;
      var heard := Recorded(es[n]);
      Outcomes(s, es[..n]) + (if heard.Some? then [Outcome(prev.currentAction, heard.value)] else [])
  }

  /** Every state a run reaches satisfies the invariant. */
  lemma {:induction false} RunPreservesInv(s: State, es: seq<Event>)
    requires Inv(s) && Run(s, es).Some?
    ensures Inv(Run(s, es).value)
    decreases |es|
  {
    if es != [] {
      var n := |es| - 1;
      RunPreservesInv(s, es[..n]);
      NextPreservesInv(Run(s, es[..n]).value, es[n]);
    }
  }

  /** Without a reset, the stats after a run are the stats before with the run's outcomes replayed, one per resolving event. */
  lemma {:induction false} RunReplaysOutcomes(s: State, es: seq<Event>)
    requires Run(s, es).Some?
    requires forall k :: 0 <= k < |es| ==> es[k] != Reset
    ensures Run(s, es).value.stats == Replay(s.stats, Outcomes(s, es))
    decreases |es|
  {
    if es != [] {
      var n := |es| - 1;
      RunReplaysOutcomes(s, es[..n]);
      var prev := Run(s, es[..n]).value;
      assert Run(s, es).value == Next(prev, es[n]);
      StatsOnlyByRecording(prev, es[n]);
      var before := Outcomes(s, es[..n]);
      var heard := Recorded(es[n]);
      if heard.Some? {
        var o := Outcome(prev.currentAction, heard.value);
        assert Outcomes(s, es) == before + [o];
        ReplaySnoc(s.stats, before, o);
      } else {
        assert Outcomes(s, es) == before;
      }
    }
  }

  /** From the first render, the stats are the plain counts of the outcomes the run recorded. */
  lemma SessionCountsOutcomes(es: seq<Event>)
    requires Run(Initial(), es).Some?
    requires forall k :: 0 <= k < |es| ==> es[k] != Reset
    ensures Run(Initial(), es).value.stats.total == |Outcomes(Initial(), es)|
    ensures Run(Initial(), es).value.stats.makes == MadeCount(Outcomes(Initial(), es))
  {
    RunReplaysOutcomes(Initial(), es);
    ReplayFromReset(Outcomes(Initial(), es));
  }
}
