/**
 * Client runs of the `Trainer` object: each drives the handlers through one
 * round and returns what the statistics panel would then show. They follow
 * only from the methods' contracts.
 */
module Scenarios {
  import opened Vocabulary
  import opened Statistics
  import opened SessionMachine
  import opened Session
  import Transcript

  /** Let the three utterances and the two pauses of the only chain in flight finish. */
  method FinishAnnouncement(t: Trainer)
    requires t.Valid()
    requires |t.announcements| == 1 && t.announcements[0].phase == SpeakingSpot
    modifies t
    ensures t.Valid()
    ensures t.showButtons && t.timer == 10 && t.announcements == []
    ensures t.timeoutRef in t.timeouts && t.countdownRef in t.intervals
    ensures t.isRunning == old(t.isRunning) && t.currentAction == old(t.currentAction)
    ensures t.stats == old(t.stats) && t.nextRounds == old(t.nextRounds)
  {
    t.SpeechEnded(0);
    t.PauseElapsed(0);
    t.SpeechEnded(0);
    t.PauseElapsed(0);
    t.SpeechEnded(0);
  }

  /** Start, let the three utterances and the two pauses finish: the response window is open. */
  method OpenRound(uSpot: real, uStart: real, uAction: real) returns (t: Trainer)
    requires IsDraw(uSpot) && IsDraw(uStart) && IsDraw(uAction)
    ensures fresh(t) && t.Valid()
    ensures t.isRunning && t.showButtons && t.timer == 10
    ensures t.currentAction in Actions
    ensures t.stats == Statistics.ResetStats()
    ensures t.timeoutRef in t.timeouts && t.countdownRef in t.intervals
    ensures t.announcements == [] && t.nextRounds == []
  {
    t := new Trainer();
    t.HandleStart(uSpot, uStart, uAction);
    FinishAnnouncement(t);
  }

  /** A make marked during the window: one attempt, one make, and the next round queued. */
  method ManualMakeRound(uSpot: real, uStart: real, uAction: real) returns (s: Stats, action: string, queued: seq<bool>)
    requires IsDraw(uSpot) && IsDraw(uStart) && IsDraw(uAction)
    ensures action in Actions
    ensures s == Stats(1, 1, map[action := ActionStat(1, 1)])
    ensures queued == [true]
  {
    var t := OpenRound(uSpot, uStart, uAction);
    t.HandleManualStat(true);
    s, action, queued := t.stats, t.currentAction, t.nextRounds;
  }

  /** No signal within the window: the timeout records a miss. */
  method TimeoutRound(uSpot: real, uStart: real, uAction: real) returns (s: Stats, action: string)
    requires IsDraw(uSpot) && IsDraw(uStart) && IsDraw(uAction)
    ensures action in Actions
    ensures s == Stats(1, 0, map[action := ActionStat(0, 1)])
  {
    var t := OpenRound(uSpot, uStart, uAction);
    t.ResponseTimeout(t.timeoutRef);
    s, action := t.stats, t.currentAction;
  }

  /**
   * A make pressed, then the recogniser reports "Miss" for the same round: the
   * press hides the buttons, but nothing stops the voice result, so both count.
   */
  method MarkThenVoiceRound(uSpot: real, uStart: real, uAction: real) returns (s: Stats, action: string)
    requires IsDraw(uSpot) && IsDraw(uStart) && IsDraw(uAction)
    ensures action in Actions
    ensures s == Stats(2, 1, map[action := ActionStat(1, 2)])
  {
    var t := OpenRound(uSpot, uStart, uAction);
    t.HandleManualStat(true);
    Transcript.ClassifyMissWord();
    t.TranscriptHeard("Miss");
    s, action := t.stats, t.currentAction;
  }

  /**
   * Pause while the spot is still being spoken: the announcement carries on, the
   * window opens anyway and its timeout records a miss although the session is
   * paused; the 1000 ms callback then starts no round.
   */
  method PauseDuringAnnouncement(uSpot: real, uStart: real, uAction: real)
    returns (s: Stats, running: bool, queued: seq<bool>)
    requires IsDraw(uSpot) && IsDraw(uStart) && IsDraw(uAction)
    ensures !running
    ensures s.total == 1 && s.makes == 0
    ensures queued == [false]
  {
    var t := new Trainer();
    t.HandleStart(uSpot, uStart, uAction);
    t.HandlePause();
    FinishAnnouncement(t);
    t.ResponseTimeout(t.timeoutRef);
    s, running, queued := t.stats, t.isRunning, t.nextRounds;
  }

  /** Pause while listening: no stat is recorded and the window's timeout is cancelled. */
  method PauseWhileListening(uSpot: real, uStart: real, uAction: real)
    returns (s: Stats, timeoutLive: bool, buttonsShown: bool)
    requires IsDraw(uSpot) && IsDraw(uStart) && IsDraw(uAction)
    ensures s == Statistics.ResetStats()
    ensures !timeoutLive
    ensures buttonsShown
  {
    var t := OpenRound(uSpot, uStart, uAction);
    t.HandlePause();
    s, timeoutLive, buttonsShown := t.stats, t.timeoutRef in t.timeouts, t.showButtons;
  }
}
