/**
 * The timer engine and the five admin commands of server/index.ts as pure steps.
 * A step gives the new record, the broadcasts it emitted in order, and whether the
 * handler raised a TypeError by reading `.duration` of a level that does not exist
 * (the record then keeps the assignments made before the failing line, and nothing
 * is emitted).
 */
module Engine {
  import opened Wrappers
  import opened Levels
  import opened Tournament
  import opened Prizes

  datatype Reaction = Reaction(state: TournamentState, emitted: seq<Event>, threw: bool)

  function WithTimer(s: TournamentState, t: TimerState): TournamentState {
    s.(timer := t)
  }

  /** Only the timer differs between the two records. */
  predicate OnlyTimerChanged(s: TournamentState, t: TournamentState) {
    t == s.(timer := t.timer)
  }

  /** A fresh countdown for `level`: its duration in whole minutes, counted in seconds. */
  function LevelSeconds(level: BlindLevel): (r: int)
    ensures r % 60 == 0 && r / 60 == level.duration
    ensures level.duration > 0 ==> r >= 60
  {
    level.duration * 60
  }

  // ---------------------------------------------------------------- the tick

  /** One run of the one-second interval body. */
  function TickStep(s: TournamentState): (r: Reaction)
    ensures OnlyTimerChanged(s, r.state)
    ensures r.threw ==> r.emitted == []
    ensures r.threw <==>
      s.timer.isRunning && s.timer.timeLeft <= 0 &&
      s.timer.currentLevelIndex < |s.blinds| - 1 && s.timer.currentLevelIndex < -1
  {
    var t := s.timer;
    if !t.isRunning then Reaction(s, [], false)
    else if t.timeLeft > 0 then
      var s1 := WithTimer(s, t.(timeLeft := t.timeLeft - 1));
      Reaction(s1, [TimerOnly(s1.timer)], false)
    else if t.currentLevelIndex < |s.blinds| - 1 then
      var s1 := WithTimer(s, t.(currentLevelIndex := t.currentLevelIndex + 1));
      match LevelAt(s1.blinds, s1.timer.currentLevelIndex)
      case None => Reaction(s1, [], true)
      case Some(next) =>
        var s2 := WithTimer(s1, s1.timer.(timeLeft := LevelSeconds(next)));
        Reaction(s2, [FullState(s2), TimerOnly(s2.timer)], false)
    else
      var s1 := WithTimer(s, t.(isRunning := false));
      Reaction(s1, [FullState(s1), TimerOnly(s1.timer)], false)
  }

  /** Idle: a tick changes nothing and emits nothing. */
  lemma TickWhileIdle(s: TournamentState)
    requires !s.timer.isRunning
    ensures TickStep(s) == Reaction(s, [], false)
  {
  }

  /** Counting: one second off, same level, one timer-only broadcast. */
  lemma TickWhileCounting(s: TournamentState)
    requires s.timer.isRunning && s.timer.timeLeft > 0
    ensures var r := TickStep(s);
      !r.threw &&
      r.state.timer == s.timer.(timeLeft := s.timer.timeLeft - 1) &&
      r.state.timer.currentLevelIndex == s.timer.currentLevelIndex &&
      r.emitted == [TimerOnly(r.state.timer)]
  {
  }

  /**
   * At zero with a level left: the next level starts with its full duration. This includes
   * index -1, which a `PUT` can store: the clock then moves cleanly to level 0.
   */
  lemma TickAtZeroAdvances(s: TournamentState)
    requires s.timer.isRunning && s.timer.timeLeft <= 0
    requires -1 <= s.timer.currentLevelIndex < |s.blinds| - 1
    ensures var r := TickStep(s); var i := s.timer.currentLevelIndex;
      !r.threw &&
      r.state.timer == s.timer.(currentLevelIndex := i + 1,
                                timeLeft := s.blinds[i + 1].duration * 60) &&
      r.emitted == [FullState(r.state), TimerOnly(r.state.timer)]
  {
  }

  /** At zero on the last level: the clock stops where it is. */
  lemma TickAtZeroOnLastLevel(s: TournamentState)
    requires s.timer.isRunning && s.timer.timeLeft <= 0
    requires s.timer.currentLevelIndex >= |s.blinds| - 1
    ensures var r := TickStep(s);
      !r.threw &&
      r.state.timer == s.timer.(isRunning := false) &&
      r.emitted == [FullState(r.state), TimerOnly(r.state.timer)]
  {
  }

  /** `n` ticks in a row, the broadcasts concatenated; a tick that throws ends the run. */
  function Run(s: TournamentState, n: nat): (r: Reaction)
    ensures OnlyTimerChanged(s, r.state)
    decreases n
  {
    if n == 0 then Reaction(s, [], false)
    else
      var first := TickStep(s);
      if first.threw then first
      else
        var rest := Run(first.state, n - 1);
        Reaction(rest.state, first.emitted + rest.emitted, rest.threw)
  }

  /** The timer-only broadcasts of a countdown of `n` seconds from `t`. */
  function CountdownTrace(t: TimerState, n: nat): (r: seq<Event>)
    ensures |r| == n
  {
    seq(n, k requires 0 <= k < n => TimerOnly(t.(timeLeft := t.timeLeft - 1 - k)))
  }

  /** Counting down `n <= timeLeft` seconds: only `timeLeft` moves, one broadcast per second. */
  lemma {:induction false} Countdown(s: TournamentState, n: nat)
    requires s.timer.isRunning && n <= s.timer.timeLeft
    ensures Run(s, n) ==
      Reaction(WithTimer(s, s.timer.(timeLeft := s.timer.timeLeft - n)), CountdownTrace(s.timer, n), false)
    decreases n
  {
    if n > 0 {
      var s1 := TickStep(s).state;
      assert s1 == WithTimer(s, s.timer.(timeLeft := s.timer.timeLeft - 1));
      Countdown(s1, n - 1);
      var tail := CountdownTrace(s1.timer, n - 1);
      assert [TimerOnly(s1.timer)] + tail == CountdownTrace(s.timer, n) by {
        forall k | 0 <= k < n
          ensures ([TimerOnly(s1.timer)] + tail)[k] == CountdownTrace(s.timer, n)[k]
        {
          if k > 0 {
            assert tail[k - 1] == TimerOnly(s1.timer.(timeLeft := s1.timer.timeLeft - 1 - (k - 1)));
          }
        }
      }
    }
  }

  /**
   * From `timeLeft = N` while running, the level does not change in the first N ticks;
   * tick N+1 advances it (or stops the clock on the last level) and sends both broadcasts.
   */
  lemma AdvanceOnTickAfterCountdown(s: TournamentState)
    requires IndexInRange(s) && s.timer.isRunning && s.timer.timeLeft >= 0
    ensures var n := s.timer.timeLeft; var i := s.timer.currentLevelIndex;
      var before := Run(s, n); var after := Run(s, n + 1);
      before.state.timer == s.timer.(timeLeft := 0) &&
      !after.threw &&
      after.state.timer ==
        (if i < |s.blinds| - 1
         then s.timer.(currentLevelIndex := i + 1, timeLeft := s.blinds[i + 1].duration * 60)
         else s.timer.(timeLeft := 0, isRunning := false)) &&
      after.emitted == CountdownTrace(s.timer, n) + [FullState(after.state), TimerOnly(after.state.timer)]
  {
    var n := s.timer.timeLeft;
    Countdown(s, n);
    RunOneMore(s, n);
    var mid := Run(s, n).state;
    assert mid.timer == s.timer.(timeLeft := 0);
    assert IndexInRange(mid);
    if s.timer.currentLevelIndex < |s.blinds| - 1 {
      TickAtZeroAdvances(mid);
    } else {
      TickAtZeroOnLastLevel(mid);
    }
  }

  /** A run of n+1 ticks is a run of n ticks followed by one more. */
  lemma {:induction false} RunOneMore(s: TournamentState, n: nat)
    ensures var a := Run(s, n); var b := TickStep(a.state);
      Run(s, n + 1) ==
        if a.threw then a else Reaction(b.state, a.emitted + b.emitted, b.threw)
    decreases n
  {
    if n > 0 {
      var first := TickStep(s);
      if !first.threw {
        RunOneMore(first.state, n - 1);
        var a := Run(first.state, n - 1);
        if !a.threw {
          var b := TickStep(a.state);
          assert first.emitted + (a.emitted + b.emitted) == (first.emitted + a.emitted) + b.emitted;
        }
      }
    } else {
      var b := TickStep(s);
      assert Run(b.state, 0).emitted == [];
      assert b.emitted + [] == b.emitted;
    }
  }

  /** A stopped clock stays stopped and silent however many ticks pass. */
  lemma {:induction false} IdleRun(s: TournamentState, n: nat)
    requires !s.timer.isRunning
    ensures Run(s, n) == Reaction(s, [], false)
  {
    if n > 0 {
      IdleRun(s, n - 1);
    }
  }

  // ----------------------------------------------------------- admin commands

  /** `admin:startTimer`. */
  function StartStep(s: TournamentState, now: int): (r: Reaction)
    ensures r.state.timer == s.timer.(isRunning := true, lastTimestamp := now)
    ensures OnlyTimerChanged(s, r.state)
    ensures r.emitted == [FullState(r.state)] && !r.threw
  {
    var s1 := WithTimer(s, s.timer.(isRunning := true));
    var s2 := WithTimer(s1, s1.timer.(lastTimestamp := now));
    Reaction(s2, [FullState(s2)], false)
  }

  /** `admin:pauseTimer`. */
  function PauseStep(s: TournamentState): (r: Reaction)
    ensures r.state.timer == s.timer.(isRunning := false)
    ensures OnlyTimerChanged(s, r.state)
    ensures r.emitted == [FullState(r.state)] && !r.threw
  {
    var s1 := WithTimer(s, s.timer.(isRunning := false));
    Reaction(s1, [FullState(s1)], false)
  }

  /** Pausing a paused clock leaves the record as it is (it still broadcasts). */
  lemma PauseIdempotent(s: TournamentState)
    ensures PauseStep(PauseStep(s).state).state == PauseStep(s).state
    ensures !s.timer.isRunning ==> PauseStep(s).state == s
  {
  }

  /** `admin:resetTimer`: the current level, else level 0, else a TypeError on an empty schedule. */
  function ResetStep(s: TournamentState): (r: Reaction)
    ensures OnlyTimerChanged(s, r.state)
    ensures r.threw <==> |s.blinds| == 0
    ensures r.threw ==> r == Reaction(s, [], true)
  {
    var level := match LevelAt(s.blinds, s.timer.currentLevelIndex)
      case Some(l) => Some(l)
      case None => LevelAt(s.blinds, 0);
    match level
    case None => Reaction(s, [], true)
    case Some(l) =>
      var s1 := WithTimer(s, s.timer.(timeLeft := LevelSeconds(l)));
      var s2 := WithTimer(s1, s1.timer.(isRunning := false));
      Reaction(s2, [FullState(s2)], false)
  }

  /** Reset refills the current level (level 0 when the index is out of range) and stops the clock. */
  lemma ResetRefillsLevel(s: TournamentState)
    requires |s.blinds| > 0
    ensures var r := ResetStep(s); var i := s.timer.currentLevelIndex;
      var level := if 0 <= i < |s.blinds| then s.blinds[i] else s.blinds[0];
      !r.threw &&
      r.state.timer == s.timer.(timeLeft := level.duration * 60, isRunning := false) &&
      r.emitted == [FullState(r.state)]
  {
  }

  /** `admin:nextLevel`. */
  function NextLevelStep(s: TournamentState): (r: Reaction)
    ensures OnlyTimerChanged(s, r.state)
    ensures r.threw ==> r.emitted == []
    ensures r.threw <==> s.timer.currentLevelIndex < -1
  {
    var t := s.timer;
    if t.currentLevelIndex < |s.blinds| - 1 then
      var s1 := WithTimer(s, t.(currentLevelIndex := t.currentLevelIndex + 1));
      match LevelAt(s1.blinds, s1.timer.currentLevelIndex)
      case None => Reaction(s1, [], true)
      case Some(level) =>
        var s2 := WithTimer(s1, s1.timer.(timeLeft := LevelSeconds(level)));
        var s3 := WithTimer(s2, s2.timer.(isRunning := false));
        Reaction(s3, [FullState(s3)], false)
    else Reaction(s, [], false)
  }

  /** `admin:prevLevel`. */
  function PrevLevelStep(s: TournamentState): (r: Reaction)
    ensures OnlyTimerChanged(s, r.state)
    ensures r.threw ==> r.emitted == []
    ensures r.threw <==> s.timer.currentLevelIndex > |s.blinds| && s.timer.currentLevelIndex > 0
  {
    var t := s.timer;
    if t.currentLevelIndex > 0 then
      var s1 := WithTimer(s, t.(currentLevelIndex := t.currentLevelIndex - 1));
      match LevelAt(s1.blinds, s1.timer.currentLevelIndex)
      case None => Reaction(s1, [], true)
      case Some(level) =>
        var s2 := WithTimer(s1, s1.timer.(timeLeft := LevelSeconds(level)));
        var s3 := WithTimer(s2, s2.timer.(isRunning := false));
        Reaction(s3, [FullState(s3)], false)
    else Reaction(s, [], false)
  }

  /** Next level at the last index (or beyond it) is a silent no-op. */
  lemma NextLevelAtEnd(s: TournamentState)
    requires s.timer.currentLevelIndex >= |s.blinds| - 1
    ensures NextLevelStep(s) == Reaction(s, [], false)
  {
  }

  /** Previous level at index 0 (or below it) is a silent no-op. */
  lemma PrevLevelAtStart(s: TournamentState)
    requires s.timer.currentLevelIndex <= 0
    ensures PrevLevelStep(s) == Reaction(s, [], false)
  {
  }

  /**
   * Otherwise next level moves one up, refills the countdown, stops the clock, broadcasts once;
   * from index -1 it lands on level 0.
   */
  lemma NextLevelMoves(s: TournamentState)
    requires -1 <= s.timer.currentLevelIndex < |s.blinds| - 1
    ensures var r := NextLevelStep(s); var i := s.timer.currentLevelIndex + 1;
      !r.threw && IndexInRange(r.state) &&
      r.state.timer == s.timer.(currentLevelIndex := i, timeLeft := s.blinds[i].duration * 60,
                                isRunning := false) &&
      r.emitted == [FullState(r.state)]
  {
  }

  /**
   * Otherwise previous level moves one down, refills the countdown, stops the clock, broadcasts
   * once; from one past the end it lands on the last level.
   */
  lemma PrevLevelMoves(s: TournamentState)
    requires 0 < s.timer.currentLevelIndex <= |s.blinds|
    ensures var r := PrevLevelStep(s); var i := s.timer.currentLevelIndex - 1;
      !r.threw && IndexInRange(r.state) &&
      r.state.timer == s.timer.(currentLevelIndex := i, timeLeft := s.blinds[i].duration * 60,
                                isRunning := false) &&
      r.emitted == [FullState(r.state)]
  {
  }

  // ----------------------------------------------------------- invariants

  /** Changing only the timer keeps the derived fields correct. */
  lemma TimerChangeKeepsConsistent(s: TournamentState, t: TournamentState)
    requires Consistent(s) && OnlyTimerChanged(s, t)
    ensures Consistent(t)
  {
    assert t == s.(timer := t.timer);
    assert CalculatePrizes(t) == CalculatePrizes(s).(timer := t.timer);
  }

  /**
   * With the index in range no timer step throws, and each one keeps the index in range
   * and the derived fields up to date.
   */
  lemma StepsPreserveInvariants(s: TournamentState, now: int)
    requires IndexInRange(s) && Consistent(s)
    ensures forall r | r in [TickStep(s), StartStep(s, now), PauseStep(s), ResetStep(s),
                             NextLevelStep(s), PrevLevelStep(s)] ::
      !r.threw && IndexInRange(r.state) && Consistent(r.state)
  {
    var rs := [TickStep(s), StartStep(s, now), PauseStep(s), ResetStep(s),
               NextLevelStep(s), PrevLevelStep(s)];
    forall r | r in rs ensures !r.threw && IndexInRange(r.state) && Consistent(r.state) {
      TimerChangeKeepsConsistent(s, r.state);
    }
  }

  /** Every level of the schedule has a non-negative duration. */
  predicate DurationsNonNegative(blinds: seq<BlindLevel>) {
    forall i :: 0 <= i < |blinds| ==> blinds[i].duration >= 0
  }

  /**
   * The countdown never goes below zero through the tick or a command: the tick only
   * decrements a positive `timeLeft`, and every refill is a duration times 60.
   */
  lemma TimeLeftStaysNonNegative(s: TournamentState, now: int)
    requires s.timer.timeLeft >= 0 && DurationsNonNegative(s.blinds)
    ensures forall r | r in [TickStep(s), StartStep(s, now), PauseStep(s), ResetStep(s),
                             NextLevelStep(s), PrevLevelStep(s)] ::
      r.state.timer.timeLeft >= 0 && r.state.blinds == s.blinds
  {
  }

  /** However many ticks pass, the countdown stays non-negative. */
  lemma {:induction false} RunKeepsTimeLeftNonNegative(s: TournamentState, n: nat)
    requires s.timer.timeLeft >= 0 && DurationsNonNegative(s.blinds)
    ensures Run(s, n).state.timer.timeLeft >= 0
    decreases n
  {
    if n > 0 {
      var first := TickStep(s);
      if !first.threw {
        TimeLeftStaysNonNegative(s, 0);
        assert first in [TickStep(s), StartStep(s, 0), PauseStep(s), ResetStep(s),
                         NextLevelStep(s), PrevLevelStep(s)];
        RunKeepsTimeLeftNonNegative(first.state, n - 1);
      }
    }
  }
}
