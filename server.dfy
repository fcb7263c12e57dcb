/**
 * The server process of server/index.ts: the one `tournamentState` record and what the
 * handlers broadcast. `log` lists every `io.emit` in order; `Date.now()` is a parameter.
 * Each handler updates the record field by field as the source does and is proved equal
 * to its step in Engine or Merge, where its properties are stated.
 */
module Server {
  import opened Wrappers
  import opened Levels
  import opened Tournament
  import opened Prizes
  import opened Engine
  import opened Merge

  /** The record as it is written out, before `calculatePrizes` first runs. */
  function SeedState(now: int): (s: TournamentState)
    ensures IndexInRange(s) && s.valorFicha != 0.0
  {
    TournamentState(
      9, 30000.0, 30000.0, 0.0, 0.0, 1000.0, DefaultBlinds(),
      TimerState(false, DefaultBlinds()[0].duration * 60, 0, now),
      PrizeConfig(50.0, 30.0, 20.0, 0.0, 0.0, 0.0, 0.0, 0.0, 0.0))
  }

  /**
   * The record the server starts from: nine players, the seed schedule, the clock stopped on
   * level 1 with its full 15 minutes, and derived fields already consistent.
   */
  function InitialState(now: int): (s: TournamentState)
    ensures Consistent(s) && IndexInRange(s)
    ensures s.jugadores == 9 && s.fichasJugadores == 30000.0 && s.valorFicha == 1000.0
    ensures s.blinds == DefaultBlinds()
    ensures s.timer == TimerState(false, 900, 0, now)
  {
    CalculatePrizesIdempotent(SeedState(now));
    CalculatePrizes(SeedState(now))
  }

  /** The derived fields the server starts with: the chip total, average stack and prizes. */
  lemma InitialStateFacts(now: int)
    ensures var s := InitialState(now);
      s.fichasTotales == 30000.0 && s.stackMedio == 3333.0 &&
      s.premios.primeroEuros == 15.0 && s.premios.segundoEuros == 9.0 && s.premios.terceroEuros == 6.0 &&
      s.premios.primeroFichas == 15000.0 && s.premios.segundoFichas == 9000.0 &&
      s.premios.terceroFichas == 6000.0
  {
    assert StackMedio(30000.0, 9) == 3333.0 by {
      assert (30000.0 / 9.0).Floor == 3333;
    }
  }

  /** Raising the players' chips to 300000 recomputes the first prize to 150 euros at once. */
  lemma PutFichasJugadoresExample(now: int)
    ensures var p := Patch(None, None, Some(300000.0), None, None, None, None, None, None);
      var r := PutStep(InitialState(now), p);
      r.state.premios.primeroEuros == 150.0 &&
      r.state.bonusDealer == InitialState(now).bonusDealer &&
      r.emitted == [FullState(r.state)]
  {
  }

  /** Next level on the last of the fourteen seed levels leaves everything as it was. */
  lemma NextLevelOnLastSeedLevel(s: TournamentState)
    requires s.blinds == DefaultBlinds() && s.timer.currentLevelIndex == 13
    ensures NextLevelStep(s) == Reaction(s, [], false)
  {
  }

  class TournamentServer {
    var state: TournamentState
    var log: seq<Event>

    constructor (now: int)
      ensures state == InitialState(now) && log == []
    {
      var seed := SeedState(now);
      state := CalculatePrizes(seed);
      log := [];
    }

    /** `io.emit`: every connected client receives the event. */
    method Broadcast(e: Event)
      modifies this
      ensures state == old(state) && log == old(log) + [e]
    {
      log := log + [e];
    }

    /** The body of the one-second interval. */
    method Tick() returns (threw: bool)
      modifies this
      ensures var r := TickStep(old(state));
        state == r.state && log == old(log) + r.emitted && threw == r.threw
      ensures Consistent(old(state)) ==> Consistent(state)
    {
      ghost var r := TickStep(state);
      if Consistent(state) {
        TimerChangeKeepsConsistent(state, r.state);
      }
      threw := false;
      if state.timer.isRunning {
        if state.timer.timeLeft > 0 {
          state := state.(timer := state.timer.(timeLeft := state.timer.timeLeft - 1));
        } else {
          if state.timer.currentLevelIndex < |state.blinds| - 1 {
            state := state.(timer := state.timer.(currentLevelIndex := state.timer.currentLevelIndex + 1));
            var next := LevelAt(state.blinds, state.timer.currentLevelIndex);
            if next.None? {
              return true;
            }
            state := state.(timer := state.timer.(timeLeft := next.value.duration * 60));
          } else {
            state := state.(timer := state.timer.(isRunning := false));
          }
          Broadcast(FullState(state));
        }
        Broadcast(TimerOnly(state.timer));
      }
    }

    /** `PUT /api/tournament`; the HTTP response is the new `state`. */
    method Put(p: Patch)
      requires MergedValorFicha(state, p) != 0.0
      modifies this
      ensures var r := PutStep(old(state), p);
        state == r.state && log == old(log) + r.emitted
      ensures Consistent(state)
    {
      var updated := MergeState(state, p);
      updated := CalculatePrizes(updated);
      state := updated;
      Broadcast(FullState(state));
    }

    /** `admin:startTimer`. */
    method StartTimer(now: int)
      modifies this
      ensures var r := StartStep(old(state), now);
        state == r.state && log == old(log) + r.emitted
      ensures Consistent(old(state)) ==> Consistent(state)
    {
      ghost var r := StartStep(state, now);
      if Consistent(state) {
        TimerChangeKeepsConsistent(state, r.state);
      }
      state := state.(timer := state.timer.(isRunning := true));
      state := state.(timer := state.timer.(lastTimestamp := now));
      Broadcast(FullState(state));
    }

    /** `admin:pauseTimer`. */
    method PauseTimer()
      modifies this
      ensures var r := PauseStep(old(state));
        state == r.state && log == old(log) + r.emitted
      ensures Consistent(old(state)) ==> Consistent(state)
    {
      ghost var r := PauseStep(state);
      if Consistent(state) {
        TimerChangeKeepsConsistent(state, r.state);
      }
      state := state.(timer := state.timer.(isRunning := false));
      Broadcast(FullState(state));
    }

    /** `admin:resetTimer`. */
    method ResetTimer() returns (threw: bool)
      modifies this
      ensures var r := ResetStep(old(state));
        state == r.state && log == old(log) + r.emitted && threw == r.threw
      ensures Consistent(old(state)) ==> Consistent(state)
    {
      ghost var r := ResetStep(state);
      if Consistent(state) {
        TimerChangeKeepsConsistent(state, r.state);
      }
      var level := LevelAt(state.blinds, state.timer.currentLevelIndex);
      if level.None? {
        level := LevelAt(state.blinds, 0);
      }
      if level.None? {
        return true;
      }
      state := state.(timer := state.timer.(timeLeft := level.value.duration * 60));
      state := state.(timer := state.timer.(isRunning := false));
      Broadcast(FullState(state));
      threw := false;
    }

    /** `admin:nextLevel`. */
    method NextLevel() returns (threw: bool)
      modifies this
      ensures var r := NextLevelStep(old(state));
        state == r.state && log == old(log) + r.emitted && threw == r.threw
      ensures Consistent(old(state)) ==> Consistent(state)
    {
      ghost var r := NextLevelStep(state);
      if Consistent(state) {
        TimerChangeKeepsConsistent(state, r.state);
      }
      threw := false;
      if state.timer.currentLevelIndex < |state.blinds| - 1 {
        state := state.(timer := state.timer.(currentLevelIndex := state.timer.currentLevelIndex + 1));
        var level := LevelAt(state.blinds, state.timer.currentLevelIndex);
        if level.None? {
          return true;
        }
        state := state.(timer := state.timer.(timeLeft := level.value.duration * 60));
        state := state.(timer := state.timer.(isRunning := false));
        Broadcast(FullState(state));
      }
    }

    /** `admin:prevLevel`. */
    method PrevLevel() returns (threw: bool)
      modifies this
      ensures var r := PrevLevelStep(old(state));
        state == r.state && log == old(log) + r.emitted && threw == r.threw
      ensures Consistent(old(state)) ==> Consistent(state)
    {
      ghost var r := PrevLevelStep(state);
      if Consistent(state) {
        TimerChangeKeepsConsistent(state, r.state);
      }
      threw := false;
      if state.timer.currentLevelIndex > 0 {
        state := state.(timer := state.timer.(currentLevelIndex := state.timer.currentLevelIndex - 1));
        var level := LevelAt(state.blinds, state.timer.currentLevelIndex);
        if level.None? {
          return true;
        }
        state := state.(timer := state.timer.(timeLeft := level.value.duration * 60));
        state := state.(timer := state.timer.(isRunning := false));
        Broadcast(FullState(state));
      }
    }
  }

  /**
   * The first level played out: start, 900 ticks of countdown, the tick that rolls over to
   * level 2, then pause, previous and next level. The index stays in range, the derived
   * fields stay current, and every step's broadcasts reach the log.
   */
  method PlayFirstLevel(now: int) returns (srv: TournamentServer)
    ensures IndexInRange(srv.state) && Consistent(srv.state)
    ensures srv.state.timer == TimerState(false, 900, 1, now)
    ensures |srv.log| == 906 && srv.log[|srv.log| - 1] == FullState(srv.state)
  {
    srv := new TournamentServer(now);
    InitialStateFacts(now);
    srv.StartTimer(now);
    var i := 0;
    while i < 900
      invariant 0 <= i <= 900
      invariant srv.state.blinds == DefaultBlinds() && Consistent(srv.state)
      invariant srv.state.timer == TimerState(true, 900 - i, 0, now)
      invariant |srv.log| == 1 + i
    {
      ghost var before := srv.state;
      var _ := srv.Tick();
      TimerChangeKeepsConsistent(before, srv.state);
      i := i + 1;
    }
    ghost var atZero := srv.state;
    var _ := srv.Tick();
    TickAtZeroAdvances(atZero);
    TimerChangeKeepsConsistent(atZero, srv.state);
    ghost var running := srv.state;
    srv.PauseTimer();
    TimerChangeKeepsConsistent(running, srv.state);
    ghost var paused := srv.state;
    var _ := srv.PrevLevel();
    PrevLevelMoves(paused);
    TimerChangeKeepsConsistent(paused, srv.state);
    ghost var back := srv.state;
    var _ := srv.NextLevel();
    NextLevelMoves(back);
    TimerChangeKeepsConsistent(back, srv.state);
  }
}
