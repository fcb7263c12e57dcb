/** The server's authoritative record (server/types.ts) and the two broadcast shapes. */
module Tournament {
  import opened Levels

  datatype TimerState = TimerState(
    isRunning: bool,
    timeLeft: int,           // seconds left in the current level
    currentLevelIndex: int,
    lastTimestamp: int)      // milliseconds, as `Date.now()` gives them

  /** Three percentages set by the admin, six amounts derived from them. */
  datatype PrizeConfig = PrizeConfig(
    porcentajePrimero: real,
    porcentajeSegundo: real,
    porcentajeTercero: real,
    primeroEuros: real,
    segundoEuros: real,
    terceroEuros: real,
    primeroFichas: real,
    segundoFichas: real,
    terceroFichas: real)

  datatype TournamentState = TournamentState(
    jugadores: int,          // players left
    fichasTotales: real,     // derived: fichasJugadores + bonusDealer
    fichasJugadores: real,   // chips that count towards the prize pool
    bonusDealer: real,       // chips that do not
    stackMedio: real,        // derived: average stack
    valorFicha: real,        // chips per euro
    blinds: seq<BlindLevel>,
    timer: TimerState,
    premios: PrizeConfig)

  /** `tournamentStateUpdate` carries the whole record, `timerUpdate` only the timer. */
  datatype Event = FullState(state: TournamentState) | TimerOnly(timer: TimerState)

  /** The timer's index names an existing level. */
  predicate IndexInRange(s: TournamentState) {
    0 <= s.timer.currentLevelIndex < |s.blinds|
  }
}
