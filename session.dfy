/**
 * The `App` component's state and handlers as an object: each field is one
 * `useState` value or `useRef` of src/App.js lines 24-33 (the speech
 * recognition ref excepted), and each method is one handler or browser
 * callback that updates them in place. Every method is proved to have
 * exactly the effect `SessionMachine.Next` gives its event.
 */
module Session {
  import opened Wrappers
  import opened Vocabulary
  import opened Statistics
  import opened Countdown
  import Transcript
  import opened SessionMachine

  class Trainer {
    var isRunning: bool
    var showButtons: bool
    var timer: int
    var currentSpot: string
    var currentStartType: string
    var currentAction: string
    var stats: Stats
    var announcements: seq<Announcement>
    var intervals: set<nat>
    var countdownRef: nat
    var timeouts: set<nat>
    var timeoutRef: nat
    var nextRounds: seq<bool>
    var nextTimerId: nat

    /** The fields as a value of the machine's state. */
    ghost function State(): SessionMachine.State
      reads this
    {
      SessionMachine.State(isRunning, showButtons, timer, currentSpot, currentStartType, currentAction,
                           stats, announcements, intervals, countdownRef, timeouts, timeoutRef,
                           nextRounds, nextTimerId)
    }

    ghost predicate Valid()
      reads this
    {
      Inv(State())
    }

    /** The first render. */
    constructor ()
      ensures Valid()
      ensures State() == Initial()
    {
      isRunning, showButtons, timer := false, false, 0;
      currentSpot, currentStartType, currentAction := "", "", "";
      stats := Statistics.ResetStats();
      announcements := [];
      intervals, countdownRef := {}, 0;
      timeouts, timeoutRef := {}, 0;
      nextRounds := [];
      nextTimerId := 1;
    }

    /** `startRound`: pick the prompt and start speaking its spot. */
    method StartRound(uSpot: real, uStart: real, uAction: real)
      requires Valid()
      requires IsDraw(uSpot) && IsDraw(uStart) && IsDraw(uAction)
      modifies this
      ensures Valid()
      ensures State() == SessionMachine.StartRound(old(State()), uSpot, uStart, uAction)
    {
      StartRoundInv(State(), uSpot, uStart, uAction);
      var spot := PickRandom(Spots, uSpot);
      var start := PickRandom(StartTypes, uStart);
      var action := PickRandom(Actions, uAction);
      currentSpot := spot;
      currentStartType := start;
      currentAction := action;
      announcements := announcements + [Announcement(Prompt(spot, start, action), SpeakingSpot)];
    }

    /** `handleStart`, run by the Start button, which is shown only while idle. */
    method HandleStart(uSpot: real, uStart: real, uAction: real)
      requires Valid()
      requires Enabled(State(), Event.Start(uSpot, uStart, uAction))
      modifies this
      ensures Valid()
      ensures State() == Next(old(State()), Event.Start(uSpot, uStart, uAction))
    {
      isRunning := true;
      StartRound(uSpot, uStart, uAction);
    }

    /** The last utterance's `onend`: show the buttons, start the countdown and the timeout. */
    method OpenWindow()
      requires Valid()
      modifies this
      ensures Valid()
      ensures State() == SessionMachine.OpenWindow(old(State()))
    {
      OpenWindowInv(State());
      showButtons := true;
      timer := WindowSeconds;
      countdownRef := nextTimerId;
      intervals := intervals + {countdownRef};
      timeoutRef := nextTimerId + 1;
      timeouts := timeouts + {timeoutRef};
      nextTimerId := nextTimerId + 2;
    }

    /** The `onend` of the utterance chain `i` is speaking; the last one opens the response window. */
    method SpeechEnded(i: nat)
      requires Valid()
      requires Enabled(State(), Event.SpeechEnded(i))
      modifies this
      ensures Valid()
      ensures State() == Next(old(State()), Event.SpeechEnded(i))
    {
      ghost var before := State();
      NextPreservesInv(before, Event.SpeechEnded(i));
      var an := announcements[i];
      if an.phase == SpeakingAction {
        announcements := RemoveAt(announcements, i);
        assert State() == before.(announcements := RemoveAt(before.announcements, i));
        RemoveChainInv(before, i);
        OpenWindow();
      } else {
        announcements := announcements[i := an.(phase := NextPhase(an.phase))];
      }
    }

    /** The 3000 ms or 2500 ms pause of chain `i` elapsed: its next utterance starts. */
    method PauseElapsed(i: nat)
      requires Valid()
      requires Enabled(State(), Event.PauseElapsed(i))
      modifies this
      ensures Valid()
      ensures State() == Next(old(State()), Event.PauseElapsed(i))
    {
      NextPreservesInv(State(), Event.PauseElapsed(i));
      var an := announcements[i];
      announcements := announcements[i := an.(phase := NextPhase(an.phase))];
    }

    /** The countdown interval `id` fired. */
    method CountdownTick(id: nat)
      requires Valid()
      requires id in intervals
      modifies this
      ensures Valid()
      ensures State() == Next(old(State()), Event.CountdownTick(id))
    {
      NextPreservesInv(State(), Event.CountdownTick(id));
      if timer <= 1 {
        intervals := intervals - {countdownRef};
      }
      timer := Tick(timer);
    }

    /**
     * `handleManualStat(made)`, called by the Make and Miss buttons (the `Mark` event
     * while they are shown), by the timeout and by a classified transcript.
     */
    method HandleManualStat(made: bool)
      requires Valid()
      modifies this
      ensures Valid()
      ensures State() == ManualStat(old(State()), made)
      ensures old(showButtons) ==> State() == Next(old(State()), Event.Mark(made))
    {
      ManualStatInv(State(), made);
      timeouts := timeouts - {timeoutRef};
      intervals := intervals - {countdownRef};
      timer := 0;
      stats := UpdateStats(stats, currentAction, made);
      showButtons := false;
      nextRounds := nextRounds + [isRunning];
    }

    /** The ten-second timeout `id` fired: `handleManualStat(false)`. */
    method ResponseTimeout(id: nat)
      requires Valid()
      requires id in timeouts
      modifies this
      ensures Valid()
      ensures State() == Next(old(State()), Event.ResponseTimeout(id))
    {
      timeouts := timeouts - {id};
      HandleManualStat(false);
    }

    /** `recognition.onresult` with transcript `text`. */
    method TranscriptHeard(text: string)
      requires Valid()
      modifies this
      ensures Valid()
      ensures State() == Next(old(State()), Event.TranscriptHeard(text))
    {
      var heard := Transcript.Classify(text);
      if heard.Some? {
        HandleManualStat(heard.value);
      }
    }

    /** The oldest pending 1000 ms callback of `handleManualStat` fired. */
    method NextRoundElapsed(uSpot: real, uStart: real, uAction: real)
      requires Valid()
      requires Enabled(State(), Event.NextRoundElapsed(uSpot, uStart, uAction))
      modifies this
      ensures Valid()
      ensures State() == Next(old(State()), Event.NextRoundElapsed(uSpot, uStart, uAction))
    {
      var wasRunning := nextRounds[0];
      nextRounds := nextRounds[1..];
      if wasRunning {
        StartRound(uSpot, uStart, uAction);
      }
    }

    /** `handlePause`, run by the Pause button, which is shown only while running. */
    method HandlePause()
      requires Valid()
      requires isRunning
      modifies this
      ensures Valid()
      ensures State() == Next(old(State()), Event.Pause)
    {
      NextPreservesInv(State(), Event.Pause);
      isRunning := false;
      timeouts := timeouts - {timeoutRef};
      intervals := intervals - {countdownRef};
      timer := 0;
    }

    /** `resetStats`. */
    method ResetStats()
      requires Valid()
      modifies this
      ensures Valid()
      ensures State() == Next(old(State()), Event.Reset)
    {
      stats := Statistics.ResetStats();
    }
  }
}
