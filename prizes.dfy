/** `calculatePrizes` (server/index.ts): the derived chip totals, average stack and prize amounts. */
module Prizes {
  import opened Tournament

  /** The average stack: `Math.floor(fichasTotales / jugadores)`, or 0 without players. */
  function StackMedio(fichasTotales: real, jugadores: int): (r: real)
    ensures jugadores <= 0 ==> r == 0.0
    ensures jugadores > 0 ==> r == r.Floor as real
    ensures jugadores > 0 ==> r * jugadores as real <= fichasTotales < (r + 1.0) * jugadores as real
  {
    if jugadores > 0 then
      FloorBounds(fichasTotales, jugadores as real);
      (fichasTotales / jugadores as real).Floor as real
    else 0.0
  }

  /** Multiplying `floor(t / j) <= t / j < floor(t / j) + 1` through by a positive `j`. */
  lemma FloorBounds(t: real, j: real)
    requires j > 0.0
    ensures ((t / j).Floor as real) * j <= t < ((t / j).Floor as real + 1.0) * j
  {
    var q := t / j;
    var f := q.Floor as real;
    assert q * j == t;
    assert f <= q < f + 1.0;
    MulMonotone(f, q, j);
    MulStrict(q, f + 1.0, j);
    assert t < (f + 1.0) * j;
  }

  lemma MulMonotone(a: real, b: real, j: real)
    requires a <= b && j > 0.0
    ensures a * j <= b * j
  {
    assert (b - a) * j >= 0.0;
  }

  lemma MulStrict(a: real, b: real, j: real)
    requires a < b && j > 0.0
    ensures a * j < b * j
  {
    assert (b - a) * j > 0.0;
  }

  /** Every field except the eight derived ones agrees between `s` and `t`. */
  predicate SameInputs(s: TournamentState, t: TournamentState) {
    s.jugadores == t.jugadores && s.fichasJugadores == t.fichasJugadores &&
    s.bonusDealer == t.bonusDealer && s.valorFicha == t.valorFicha &&
    s.blinds == t.blinds && s.timer == t.timer &&
    s.premios.porcentajePrimero == t.premios.porcentajePrimero &&
    s.premios.porcentajeSegundo == t.premios.porcentajeSegundo &&
    s.premios.porcentajeTercero == t.premios.porcentajeTercero
  }

  /** The prize for one place in euros: its percentage of the players' chips converted at `valorFicha`. */
  function PrizeEuros(fichasJugadores: real, valorFicha: real, pct: real): real
    requires valorFicha != 0.0
  {
    (fichasJugadores / valorFicha) * (pct / 100.0)
  }

  function CalculatePrizes(s: TournamentState): (r: TournamentState)
    requires s.valorFicha != 0.0
    ensures SameInputs(s, r)
    ensures r.fichasTotales == s.fichasJugadores + s.bonusDealer
    ensures r.stackMedio == StackMedio(s.fichasJugadores + s.bonusDealer, s.jugadores)
    ensures r.premios.primeroEuros == PrizeEuros(s.fichasJugadores, s.valorFicha, s.premios.porcentajePrimero)
    ensures r.premios.segundoEuros == PrizeEuros(s.fichasJugadores, s.valorFicha, s.premios.porcentajeSegundo)
    ensures r.premios.terceroEuros == PrizeEuros(s.fichasJugadores, s.valorFicha, s.premios.porcentajeTercero)
    ensures r.premios.primeroFichas == r.premios.primeroEuros * s.valorFicha
    ensures r.premios.segundoFichas == r.premios.segundoEuros * s.valorFicha
    ensures r.premios.terceroFichas == r.premios.terceroEuros * s.valorFicha
  {
    var fichasTotales := s.fichasJugadores + s.bonusDealer;
    var stackMedio := StackMedio(fichasTotales, s.jugadores);
    var totalEuros := s.fichasJugadores / s.valorFicha;
    var primeroEuros := totalEuros * (s.premios.porcentajePrimero / 100.0);
    var segundoEuros := totalEuros * (s.premios.porcentajeSegundo / 100.0);
    var terceroEuros := totalEuros * (s.premios.porcentajeTercero / 100.0);
    s.(fichasTotales := fichasTotales,
       stackMedio := stackMedio,
       premios := s.premios.(
         primeroEuros := primeroEuros,
         segundoEuros := segundoEuros,
         terceroEuros := terceroEuros,
         primeroFichas := primeroEuros * s.valorFicha,
         segundoFichas := segundoEuros * s.valorFicha,
         terceroFichas := terceroEuros * s.valorFicha))
  }

  /** The record's derived fields are exactly what `calculatePrizes` would give it. */
  predicate Consistent(s: TournamentState) {
    s.valorFicha != 0.0 && CalculatePrizes(s) == s
  }

  /** The result depends only on the inputs: the stored derived fields are never read. */
  lemma CalculatePrizesIgnoresDerived(s: TournamentState, t: TournamentState)
    requires s.valorFicha != 0.0 && SameInputs(s, t)
    ensures CalculatePrizes(s) == CalculatePrizes(t)
  {
  }

  /** Applying it twice is applying it once; its result is Consistent. */
  lemma CalculatePrizesIdempotent(s: TournamentState)
    requires s.valorFicha != 0.0
    ensures CalculatePrizes(CalculatePrizes(s)) == CalculatePrizes(s)
    ensures Consistent(CalculatePrizes(s))
  {
    CalculatePrizesIgnoresDerived(CalculatePrizes(s), s);
  }

  /** A prize in chips is its percentage of the players' chips, whatever the exchange rate. */
  lemma PrizeFichasArePercentOfPlayerChips(s: TournamentState)
    requires s.valorFicha != 0.0
    ensures CalculatePrizes(s).premios.primeroFichas == s.fichasJugadores * s.premios.porcentajePrimero / 100.0
    ensures CalculatePrizes(s).premios.segundoFichas == s.fichasJugadores * s.premios.porcentajeSegundo / 100.0
    ensures CalculatePrizes(s).premios.terceroFichas == s.fichasJugadores * s.premios.porcentajeTercero / 100.0
  {
    var v := s.valorFicha;
    var a := s.fichasJugadores;
    forall pct: real ensures PrizeEuros(a, v, pct) * v == a * pct / 100.0 {
      calc {
        PrizeEuros(a, v, pct) * v;
        (a / v) * (pct / 100.0) * v;
        ((a / v) * v) * (pct / 100.0);
        { assert (a / v) * v == a; }
        a * (pct / 100.0);
      }
    }
  }

  /** The three euro prizes together are the stated share of the players' chips in euros. */
  lemma PrizePoolInEuros(s: TournamentState)
    requires s.valorFicha != 0.0
    ensures var p := CalculatePrizes(s).premios;
      p.primeroEuros + p.segundoEuros + p.terceroEuros ==
      (s.fichasJugadores / s.valorFicha) *
      (s.premios.porcentajePrimero + s.premios.porcentajeSegundo + s.premios.porcentajeTercero) / 100.0
  {
  }

  /** The dealer bonus reaches the chip total and the average stack but none of the six prize fields. */
  lemma BonusDealerDoesNotChangePrizes(s: TournamentState, bonus: real)
    requires s.valorFicha != 0.0
    ensures CalculatePrizes(s.(bonusDealer := bonus)).premios == CalculatePrizes(s).premios
    ensures CalculatePrizes(s.(bonusDealer := bonus)).fichasTotales == s.fichasJugadores + bonus
  {
  }
}
