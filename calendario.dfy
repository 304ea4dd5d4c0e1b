/**
 * Naive Python dates and datetimes on the proleptic Gregorian calendar,
 * compared through date.toordinal() so that subtracting two values and
 * reading `.days` behaves as Python does (the floor of the day difference).
 */
module Calendario {

  datatype Data = Data(ano: int, mes: int, dia: int)

  /** A naive datetime: its calendar date and the seconds elapsed since that date's midnight. */
  datatype DataHora = DataHora(data: Data, segundos: int)

  const SegundosPorDia: int := 86400

  predicate Bissexto(y: int) {
    y % 4 == 0 && (y % 100 != 0 || y % 400 == 0)
  }

  function DiasNoMes(y: int, m: int): (n: int)
    requires 1 <= m <= 12
    ensures 28 <= n <= 31
    ensures m == 2 ==> (n == 29 <==> Bissexto(y))
  {
    if m == 2 then (if Bissexto(y) then 29 else 28)
    else if m == 4 || m == 6 || m == 9 || m == 11 then 30
    else 31
  }

  /** What datetime(ano, mes, dia) accepts (years above 9999 are not rejected here). */
  predicate DataValida(d: Data) {
    d.ano >= 1 && 1 <= d.mes <= 12 && 1 <= d.dia <= DiasNoMes(d.ano, d.mes)
  }

  /** a >= b for dates, which is also how a datetime column compares with a date bound. */
  predicate NaoAntes(a: Data, b: Data) {
    a.ano > b.ano || (a.ano == b.ano && (a.mes > b.mes || (a.mes == b.mes && a.dia >= b.dia)))
  }

  predicate DataHoraValida(t: DataHora) {
    DataValida(t.data) && 0 <= t.segundos < SegundosPorDia
  }

  function DiasAntesDoAno(y: int): int
    requires y >= 1
  {
    var a := y - 1;
    365 * a + a / 4 - a / 100 + a / 400
  }

  function DiasAntesDoMes(y: int, m: int): int
    requires 1 <= m <= 12
  {
    var base :=
      if m == 1 then 0 else if m == 2 then 31 else if m == 3 then 59 else if m == 4 then 90
      else if m == 5 then 120 else if m == 6 then 151 else if m == 7 then 181 else if m == 8 then 212
      else if m == 9 then 243 else if m == 10 then 273 else if m == 11 then 304 else 334;
    base + (if m > 2 && Bissexto(y) then 1 else 0)
  }

  /** date.toordinal(): 1 January of year 1 is day 1. */
  function Ordinal(d: Data): int
    requires d.ano >= 1 && 1 <= d.mes <= 12
  {
    DiasAntesDoAno(d.ano) + DiasAntesDoMes(d.ano, d.mes) + d.dia
  }

  /** Seconds on one timeline shared by every datetime of the model. */
  function Instante(t: DataHora): int
    requires t.data.ano >= 1 && 1 <= t.data.mes <= 12
  {
    Ordinal(t.data) * SegundosPorDia + t.segundos
  }

  /** (a - b).days: the floor of the difference in days. */
  function DiasEntre(a: DataHora, b: DataHora): int
    requires a.data.ano >= 1 && 1 <= a.data.mes <= 12
    requires b.data.ano >= 1 && 1 <= b.data.mes <= 12
  {
    (Instante(a) - Instante(b)) / SegundosPorDia
  }

  /** The year after y starts 365 days later, or 366 when y is a leap year. */
  lemma DiasAntesDoAnoSeguinte(y: int)
    requires y >= 1
    ensures DiasAntesDoAno(y + 1) - DiasAntesDoAno(y) == if Bissexto(y) then 366 else 365
  {
    var a := y - 1;
    assert y / 4 - a / 4 == if y % 4 == 0 then 1 else 0;
    assert y / 100 - a / 100 == if y % 100 == 0 then 1 else 0;
    assert y / 400 - a / 400 == if y % 400 == 0 then 1 else 0;
  }

  /**
   * Day d2 of the month after (y, m) lies DiasNoMes(y, m) - d1 + d2 days after
   * day d1 of (y, m); December rolls over to January of the next year.
   */
  lemma OrdinalMesSeguinte(y: int, m: int, d1: int, d2: int)
    requires y >= 1 && 1 <= m <= 12
    ensures var prox := if m == 12 then Data(y + 1, 1, d2) else Data(y, m + 1, d2);
            Ordinal(prox) - Ordinal(Data(y, m, d1)) == DiasNoMes(y, m) - d1 + d2
  {
    if m == 12 {
      DiasAntesDoAnoSeguinte(y);
    }
  }

  /** Dividing a whole number of days plus a part of a day by the day length. */
  lemma DivisaoPorDia(q: int, r: int)
    requires 0 <= r < SegundosPorDia
    ensures (q * SegundosPorDia + r) / SegundosPorDia == q
  {
  }

  /** (a - b).days is at least 1 exactly when 24 hours or more separate them. */
  lemma DiasEntrePeloMenosUm(a: DataHora, b: DataHora)
    requires a.data.ano >= 1 && 1 <= a.data.mes <= 12
    requires b.data.ano >= 1 && 1 <= b.data.mes <= 12
    ensures DiasEntre(a, b) >= 1 <==> Instante(a) - Instante(b) >= SegundosPorDia
  {
  }
}
