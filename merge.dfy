/**
 * `PUT /api/tournament` (server/index.ts): a partial record is spread over the stored one,
 * `premios` and `timer` key by key, and the derived fields are then recomputed.
 * A key absent from the request body is `None` here.
 */
module Merge {
  import opened Wrappers
  import opened Levels
  import opened Tournament
  import opened Prizes
  import opened Engine

  datatype TimerPatch = TimerPatch(
    isRunning: Option<bool>,
    timeLeft: Option<int>,
    currentLevelIndex: Option<int>,
    lastTimestamp: Option<int>)

  datatype PrizePatch = PrizePatch(
    porcentajePrimero: Option<real>,
    porcentajeSegundo: Option<real>,
    porcentajeTercero: Option<real>,
    primeroEuros: Option<real>,
    segundoEuros: Option<real>,
    terceroEuros: Option<real>,
    primeroFichas: Option<real>,
    segundoFichas: Option<real>,
    terceroFichas: Option<real>)

  datatype Patch = Patch(
    jugadores: Option<int>,
    fichasTotales: Option<real>,
    fichasJugadores: Option<real>,
    bonusDealer: Option<real>,
    stackMedio: Option<real>,
    valorFicha: Option<real>,
    blinds: Option<seq<BlindLevel>>,
    timer: Option<TimerPatch>,
    premios: Option<PrizePatch>)

  /** A spread key: the supplied value when the key is present, the stored one otherwise. */
  predicate Takes<T(==)>(supplied: Option<T>, stored: T, merged: T) {
    match supplied
    case Some(v) => merged == v
    case None => merged == stored
  }

  /** `{ ...old, ...patch }` for the timer. */
  function MergeTimer(t: TimerState, p: TimerPatch): (r: TimerState)
    ensures Takes(p.isRunning, t.isRunning, r.isRunning) && Takes(p.timeLeft, t.timeLeft, r.timeLeft)
    ensures Takes(p.currentLevelIndex, t.currentLevelIndex, r.currentLevelIndex)
    ensures Takes(p.lastTimestamp, t.lastTimestamp, r.lastTimestamp)
  {
    TimerState(p.isRunning.GetOr(t.isRunning), p.timeLeft.GetOr(t.timeLeft),
               p.currentLevelIndex.GetOr(t.currentLevelIndex), p.lastTimestamp.GetOr(t.lastTimestamp))
  }

  /** `{ ...old, ...patch }` for the prize configuration. */
  function MergePrizes(c: PrizeConfig, p: PrizePatch): (r: PrizeConfig)
    ensures Takes(p.porcentajePrimero, c.porcentajePrimero, r.porcentajePrimero)
    ensures Takes(p.porcentajeSegundo, c.porcentajeSegundo, r.porcentajeSegundo)
    ensures Takes(p.porcentajeTercero, c.porcentajeTercero, r.porcentajeTercero)
    ensures Takes(p.primeroEuros, c.primeroEuros, r.primeroEuros)
    ensures Takes(p.segundoEuros, c.segundoEuros, r.segundoEuros)
    ensures Takes(p.terceroEuros, c.terceroEuros, r.terceroEuros)
    ensures Takes(p.primeroFichas, c.primeroFichas, r.primeroFichas)
    ensures Takes(p.segundoFichas, c.segundoFichas, r.segundoFichas)
    ensures Takes(p.terceroFichas, c.terceroFichas, r.terceroFichas)
  {
    PrizeConfig(
      p.porcentajePrimero.GetOr(c.porcentajePrimero), p.porcentajeSegundo.GetOr(c.porcentajeSegundo),
      p.porcentajeTercero.GetOr(c.porcentajeTercero),
      p.primeroEuros.GetOr(c.primeroEuros), p.segundoEuros.GetOr(c.segundoEuros),
      p.terceroEuros.GetOr(c.terceroEuros),
      p.primeroFichas.GetOr(c.primeroFichas), p.segundoFichas.GetOr(c.segundoFichas),
      p.terceroFichas.GetOr(c.terceroFichas))
  }

  /**
   * The merged record before the prizes are recalculated: top-level keys are spread, and a
   * supplied `timer` or `premios` object is itself spread over the stored one.
   */
  function MergeState(s: TournamentState, p: Patch): (r: TournamentState)
    ensures Takes(p.jugadores, s.jugadores, r.jugadores) && Takes(p.fichasTotales, s.fichasTotales, r.fichasTotales)
    ensures Takes(p.fichasJugadores, s.fichasJugadores, r.fichasJugadores)
    ensures Takes(p.bonusDealer, s.bonusDealer, r.bonusDealer) && Takes(p.stackMedio, s.stackMedio, r.stackMedio)
    ensures Takes(p.valorFicha, s.valorFicha, r.valorFicha) && Takes(p.blinds, s.blinds, r.blinds)
    ensures p.timer.None? ==> r.timer == s.timer
    ensures p.timer.Some? ==> r.timer == MergeTimer(s.timer, p.timer.value)
    ensures p.premios.None? ==> r.premios == s.premios
    ensures p.premios.Some? ==> r.premios == MergePrizes(s.premios, p.premios.value)
  {
    TournamentState(
      p.jugadores.GetOr(s.jugadores), p.fichasTotales.GetOr(s.fichasTotales),
      p.fichasJugadores.GetOr(s.fichasJugadores), p.bonusDealer.GetOr(s.bonusDealer),
      p.stackMedio.GetOr(s.stackMedio), p.valorFicha.GetOr(s.valorFicha),
      p.blinds.GetOr(s.blinds),
      match p.timer case Some(tp) => MergeTimer(s.timer, tp) case None => s.timer,
      match p.premios case Some(pp) => MergePrizes(s.premios, pp) case None => s.premios)
  }

  /** A body with no keys leaves the record as it was. */
  lemma MergeEmptyPatch(s: TournamentState)
    ensures MergeState(s, Patch(None, None, None, None, None, None, None, None, None)) == s
  {
  }

  /** Spreading the same body a second time changes nothing more. */
  lemma MergeIdempotent(s: TournamentState, p: Patch)
    ensures MergeState(MergeState(s, p), p) == MergeState(s, p)
  {
  }

  /** The exchange rate after the merge; it must not be zero for the prizes to be defined. */
  function MergedValorFicha(s: TournamentState, p: Patch): real {
    p.valorFicha.GetOr(s.valorFicha)
  }

  /** The whole handler: merge, recalculate, store, broadcast once. */
  function PutStep(s: TournamentState, p: Patch): (r: Reaction)
    requires MergedValorFicha(s, p) != 0.0
    ensures Consistent(r.state)
    ensures r.emitted == [FullState(r.state)] && !r.threw
  {
    var merged := CalculatePrizes(MergeState(s, p));
    CalculatePrizesIdempotent(MergeState(s, p));
    Reaction(merged, [FullState(merged)], false)
  }

  /** Sending the same `PUT` body twice stores the same record as sending it once. */
  lemma PutIdempotent(s: TournamentState, p: Patch)
    requires MergedValorFicha(s, p) != 0.0
    ensures MergedValorFicha(PutStep(s, p).state, p) != 0.0
    ensures PutStep(PutStep(s, p).state, p).state == PutStep(s, p).state
  {
    var once := PutStep(s, p).state;
    CalculatePrizesIgnoresDerived(MergeState(once, p), MergeState(s, p));
  }

  /** Top-level inputs present in the patch replace the stored ones; absent ones are kept. */
  lemma PutReplacesTopLevel(s: TournamentState, p: Patch)
    requires MergedValorFicha(s, p) != 0.0
    ensures var t := PutStep(s, p).state;
      t.jugadores == (if p.jugadores.Some? then p.jugadores.value else s.jugadores) &&
      t.fichasJugadores == (if p.fichasJugadores.Some? then p.fichasJugadores.value else s.fichasJugadores) &&
      t.bonusDealer == (if p.bonusDealer.Some? then p.bonusDealer.value else s.bonusDealer) &&
      t.valorFicha == (if p.valorFicha.Some? then p.valorFicha.value else s.valorFicha) &&
      t.blinds == (if p.blinds.Some? then p.blinds.value else s.blinds)
  {
  }

  /** The timer is merged key by key: a key the patch lacks keeps its stored value. */
  lemma PutMergesTimer(s: TournamentState, p: Patch)
    requires MergedValorFicha(s, p) != 0.0
    ensures var t := PutStep(s, p).state.timer;
      (p.timer.None? ==> t == s.timer) &&
      (p.timer.Some? ==>
        var q := p.timer.value;
        t.isRunning == (if q.isRunning.Some? then q.isRunning.value else s.timer.isRunning) &&
        t.timeLeft == (if q.timeLeft.Some? then q.timeLeft.value else s.timer.timeLeft) &&
        t.currentLevelIndex ==
          (if q.currentLevelIndex.Some? then q.currentLevelIndex.value else s.timer.currentLevelIndex) &&
        t.lastTimestamp == (if q.lastTimestamp.Some? then q.lastTimestamp.value else s.timer.lastTimestamp))
  {
  }

  /** The percentages are merged key by key as well. */
  lemma PutMergesPercentages(s: TournamentState, p: Patch)
    requires MergedValorFicha(s, p) != 0.0
    ensures var c := PutStep(s, p).state.premios;
      (p.premios.None? ==>
        c.porcentajePrimero == s.premios.porcentajePrimero &&
        c.porcentajeSegundo == s.premios.porcentajeSegundo &&
        c.porcentajeTercero == s.premios.porcentajeTercero) &&
      (p.premios.Some? ==>
        var q := p.premios.value;
        c.porcentajePrimero == q.porcentajePrimero.GetOr(s.premios.porcentajePrimero) &&
        c.porcentajeSegundo == q.porcentajeSegundo.GetOr(s.premios.porcentajeSegundo) &&
        c.porcentajeTercero == q.porcentajeTercero.GetOr(s.premios.porcentajeTercero))
  {
  }

  /** Two patches that agree on every input (they may differ in the derived fields). */
  predicate SameInputPatch(p: Patch, q: Patch) {
    p.jugadores == q.jugadores && p.fichasJugadores == q.fichasJugadores &&
    p.bonusDealer == q.bonusDealer && p.valorFicha == q.valorFicha && p.blinds == q.blinds &&
    p.timer == q.timer && p.premios.Some? == q.premios.Some? &&
    (p.premios.Some? ==>
      p.premios.value.porcentajePrimero == q.premios.value.porcentajePrimero &&
      p.premios.value.porcentajeSegundo == q.premios.value.porcentajeSegundo &&
      p.premios.value.porcentajeTercero == q.premios.value.porcentajeTercero)
  }

  /**
   * Derived values a client sends (a stale `fichasTotales`, `stackMedio` or prize) never
   * survive: the stored result depends only on the inputs of the patch.
   */
  lemma PutIgnoresSuppliedDerived(s: TournamentState, p: Patch, q: Patch)
    requires MergedValorFicha(s, p) != 0.0 && SameInputPatch(p, q)
    ensures MergedValorFicha(s, q) != 0.0
    ensures PutStep(s, p) == PutStep(s, q)
  {
    CalculatePrizesIgnoresDerived(MergeState(s, p), MergeState(s, q));
  }

  /** No range check: a shorter schedule can leave the timer's index past its end. */
  lemma PutCanLeaveIndexOutOfRange(s: TournamentState, shorter: seq<BlindLevel>)
    requires s.valorFicha != 0.0 && |shorter| <= s.timer.currentLevelIndex
    ensures var p := Patch(None, None, None, None, None, None, Some(shorter), None, None);
      !IndexInRange(PutStep(s, p).state)
  {
  }

  /** No check on the timer either: a body can store a negative countdown. */
  lemma PutCanStoreNegativeTime(s: TournamentState)
    requires s.valorFicha != 0.0
    ensures var p := Patch(None, None, None, None, None, None, None,
                           Some(TimerPatch(None, Some(-5), None, None)), None);
      PutStep(s, p).state.timer.timeLeft == -5
  {
  }

  /**
   * After such a merge the previous-level command raises a TypeError whenever index - 1
   * is still past the end (the next-level command is then a silent no-op instead).
   */
  lemma PrevLevelAfterShrinkThrows(s: TournamentState, shorter: seq<BlindLevel>)
    requires s.valorFicha != 0.0 && |shorter| < s.timer.currentLevelIndex
    ensures var p := Patch(None, None, None, None, None, None, Some(shorter), None, None);
      PrevLevelStep(PutStep(s, p).state).threw &&
      NextLevelStep(PutStep(s, p).state) == Reaction(PutStep(s, p).state, [], false)
  {
  }
}
