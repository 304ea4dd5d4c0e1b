/**
 * The alert engine of alertas.py: an envelope's level from its percentage used,
 * the recent daily burn rate, the forecast of when the limit runs out, and which
 * alert and which tips an envelope gets.
 */
module Alertas {
  import opened Comum
  import opened Calendario
  import opened Banco

  // ---------------------------------------------------------------- level

  datatype Nivel = NivelOk | Atencao | Alerta | Estourado

  function Grau(n: Nivel): nat {
    match n
    case NivelOk => 0
    case Atencao => 1
    case Alerta => 2
    case Estourado => 3
  }

  /** The four bands, each closed at its lower bound: 100 and up, 80 and up, 50 and up, below 50. */
  function NivelPorPercentual(p: real): (n: Nivel)
    ensures n == Estourado <==> p >= 100.0
    ensures n == Alerta <==> 80.0 <= p < 100.0
    ensures n == Atencao <==> 50.0 <= p < 80.0
    ensures n == NivelOk <==> p < 50.0
  {
    if p >= 100.0 then Estourado
    else if p >= 80.0 then Alerta
    else if p >= 50.0 then Atencao
    else NivelOk
  }

  /**
   * calcular_nivel_alerta: with a positive limit, the envelope is over it from 100% of the
   * limit spent, on red alert from 80%, needs attention from 50%; with no positive limit the
   * percentage is 0 and the level ok.
   */
  function CalcularNivelAlerta(c: Caixinha): (n: Nivel)
    ensures c.limite <= 0.0 ==> n == NivelOk
    ensures c.limite > 0.0 ==> (Grau(n) >= 3 <==> c.gastoAtual >= c.limite)
    ensures c.limite > 0.0 ==> (Grau(n) >= 2 <==> c.gastoAtual * 5.0 >= c.limite * 4.0)
    ensures c.limite > 0.0 ==> (Grau(n) >= 1 <==> c.gastoAtual * 2.0 >= c.limite)
  {
    var p := PercentualUsado(c);
    AcimaDe(p, c.limite, c.gastoAtual, 100.0);
    AcimaDe(p, c.limite, c.gastoAtual, 80.0);
    AcimaDe(p, c.limite, c.gastoAtual, 50.0);
    NivelPorPercentual(p)
  }

  /** With p * limite == gasto * 100 and a positive limit, p reaches k exactly when gasto reaches k% of the limit. */
  lemma AcimaDe(p: real, limite: real, gasto: real, k: real)
    requires limite > 0.0 ==> p * limite == gasto * 100.0
    ensures limite > 0.0 ==> (p >= k <==> gasto * 100.0 >= k * limite)
  {
    if limite > 0.0 {
      var d := if p >= k then p - k else k - p;
      ProdutoNaoNegativo(d, limite);
      var pl := p * limite;
      var kl := k * limite;
      assert d * limite == if p >= k then pl - kl else kl - pl;
    }
  }

  /** Spending more never lowers the level. */
  lemma NivelMonotono(p: real, q: real)
    requires p <= q
    ensures Grau(NivelPorPercentual(p)) <= Grau(NivelPorPercentual(q))
  {
  }

  // ---------------------------------------------------------------- crossing a threshold

  const Limites: seq<real> := [50.0, 75.0, 90.0, 100.0]

  predicate CruzaLimite(anterior: real, atual: real) {
    exists k :: 0 <= k < |Limites| && anterior < Limites[k] <= atual
  }

  /** deve_enviar_alerta_apos_gasto: true as soon as one of 50, 75, 90, 100 lies in (anterior, atual]. */
  method DeveEnviarAlertaAposGasto(c: Caixinha, percentualAnterior: real) returns (r: bool)
    ensures r <==> CruzaLimite(percentualAnterior, PercentualUsado(c))
  {
    var atual := PercentualUsado(c);
    var i := 0;
    while i < |Limites|
      invariant 0 <= i <= |Limites|
      invariant forall k :: 0 <= k < i ==> !(percentualAnterior < Limites[k] <= atual)
    {
      if percentualAnterior < Limites[i] <= atual {
        return true;
      }
      i := i + 1;
    }
    return false;
  }

  /** How many of the four thresholds p has reached. */
  function Alcancados(p: real): (n: nat)
    ensures n <= 4
  {
    (if p >= 50.0 then 1 else 0) + (if p >= 75.0 then 1 else 0) +
    (if p >= 90.0 then 1 else 0) + (if p >= 100.0 then 1 else 0)
  }

  /**
   * An alert is due exactly when the spend took the envelope past more thresholds
   * than before; so never when the percentage did not grow.
   */
  lemma CruzaLimiteSeAlcancouMais(anterior: real, atual: real)
    ensures CruzaLimite(anterior, atual) <==> Alcancados(atual) > Alcancados(anterior)
    ensures atual <= anterior ==> !CruzaLimite(anterior, atual)
  {
    if Alcancados(atual) > Alcancados(anterior) {
      if anterior < 50.0 <= atual {
        assert anterior < Limites[0] <= atual;
      } else if anterior < 75.0 <= atual {
        assert anterior < Limites[1] <= atual;
      } else if anterior < 90.0 <= atual {
        assert anterior < Limites[2] <= atual;
      } else {
        assert anterior < Limites[3] <= atual;
      }
    }
  }

  // ---------------------------------------------------------------- burn rate and forecast

  /** t belongs to envelope c and was created no earlier than `dias` days before agora. */
  predicate Recente(c: Caixinha, agora: DataHora, dias: int, t: Transacao)
    requires DataHoraValida(agora)
  {
    t.caixinhaId == c.id && DataHoraValida(t.criadoEm) &&
    Instante(t.criadoEm) >= Instante(agora) - dias * SegundosPorDia
  }

  /** The envelope's transactions created within the last `dias` days before agora, in table order. */
  function JanelaRecente(c: Caixinha, ts: seq<Transacao>, agora: DataHora, dias: int): (r: seq<Transacao>)
    requires DataHoraValida(agora)
    ensures forall i :: 0 <= i < |r| ==> Recente(c, agora, dias, r[i])
    ensures forall t :: t in r <==> t in ts && Recente(c, agora, dias, t)
    ensures r == Filtrar(ts, (t: Transacao) => Recente(c, agora, dias, t))
  {
    var r := Filtrar(ts, (t: Transacao) => Recente(c, agora, dias, t));
    assert forall i :: 0 <= i < |r| ==> r[i] in r;
    r
  }

  /**
   * calcular_gasto_diario_medio: the spend of the window over the days since its
   * first transaction, counting today, and never over fewer than one day.
   */
  function CalcularGastoDiarioMedio(c: Caixinha, ts: seq<Transacao>, agora: DataHora, dias: int): (r: real)
    requires DataHoraValida(agora)
  {
    var janela := JanelaRecente(c, ts, agora, dias);
    if janela == [] then 0.0
    else
      assert janela[0] in janela;
      var decorridos := DiasEntre(agora, janela[0].criadoEm) + 1;
      SomaValores(janela) / (Max(decorridos, 1) as real)
  }

  /**
   * The rate is 0 for an empty window; otherwise rate times the day count is the
   * window's spend, the day count running from 1 to dias + 1 when the first
   * transaction is not in the future.
   */
  lemma GastoDiarioMedioJanela(c: Caixinha, ts: seq<Transacao>, agora: DataHora, dias: int)
    requires DataHoraValida(agora)
    ensures JanelaRecente(c, ts, agora, dias) == [] ==> CalcularGastoDiarioMedio(c, ts, agora, dias) == 0.0
    ensures var janela := JanelaRecente(c, ts, agora, dias);
            janela != [] ==>
              var d := Max(DiasEntre(agora, janela[0].criadoEm) + 1, 1);
              Rateio(CalcularGastoDiarioMedio(c, ts, agora, dias), d, SomaValores(janela)) &&
              (Instante(janela[0].criadoEm) <= Instante(agora) ==> 1 <= d <= Max(dias, 0) + 1)
  {
    var janela := JanelaRecente(c, ts, agora, dias);
    if janela != [] {
      var t0 := janela[0];
      var d := Max(DiasEntre(agora, t0.criadoEm) + 1, 1);
      VezesQuociente(SomaValores(janela), d, CalcularGastoDiarioMedio(c, ts, agora, dias));
      if Instante(t0.criadoEm) <= Instante(agora) {
        DiasNaJanela(Instante(agora) - Instante(t0.criadoEm), dias);
      }
    }
  }

  /** A daily rate r spread over d days adds up to the total. */
  predicate Rateio(r: real, d: int, total: real) {
    r * (d as real) == total
  }

  lemma VezesQuociente(x: real, d: int, r: real)
    requires d >= 1 && r == x / (d as real)
    ensures Rateio(r, d, x)
  {
  }

  /** A gap of 0 to dias days, in seconds, is at most dias whole days. */
  lemma DiasNaJanela(delta: int, dias: int)
    requires 0 <= delta <= dias * SegundosPorDia
    ensures 0 <= delta / SegundosPorDia <= Max(dias, 0)
  {
  }

  /** When the limit would run out at the current pace: a point in time, in seconds on the model's timeline. */
  function PreverDataEstouro(c: Caixinha, ts: seq<Transacao>, agora: DataHora): (r: Option<real>)
    requires DataHoraValida(agora)
    ensures var m := CalcularGastoDiarioMedio(c, ts, agora, 7);
            (r.None? <==> SaldoRestante(c) <= 0.0 || m <= 0.0) &&
            (r.Some? ==> r.value > Instante(agora) as real &&
                         r.value == Instante(agora) as real + SaldoRestante(c) / m * (SegundosPorDia as real))
  {
    var saldo := SaldoRestante(c);
    if saldo <= 0.0 then None
    else
      var m := CalcularGastoDiarioMedio(c, ts, agora, 7);
      if m <= 0.0 then None
      else
        AvancoPositivo(saldo, m);
        Some(Instante(agora) as real + saldo / m * (SegundosPorDia as real))
  }

  lemma AvancoPositivo(saldo: real, m: real)
    requires saldo > 0.0 && m > 0.0
    ensures saldo / m * (SegundosPorDia as real) > 0.0
  {
    assert saldo / m > 0.0;
  }

  /** (data_estouro - now).days: the whole days left at the current pace. */
  function DiasRestantes(c: Caixinha, ts: seq<Transacao>, agora: DataHora): (r: Option<int>)
    requires DataHoraValida(agora)
    ensures r.Some? <==> PreverDataEstouro(c, ts, agora).Some?
    ensures r.Some? ==> r.value >= 0
    ensures r.Some? ==> r.value == (SaldoRestante(c) / CalcularGastoDiarioMedio(c, ts, agora, 7)).Floor
  {
    var saldo := SaldoRestante(c);
    var m := CalcularGastoDiarioMedio(c, ts, agora, 7);
    if saldo <= 0.0 || m <= 0.0 then None
    else
      PisoDoQuociente(saldo, m);
      Some((saldo / m).Floor)
  }

  /** The days left are the whole number of days the balance lasts at the current pace: the floor of balance over rate. */
  lemma DiasRestantesPiso(c: Caixinha, ts: seq<Transacao>, agora: DataHora)
    requires DataHoraValida(agora)
    ensures var r := DiasRestantes(c, ts, agora);
            var m := CalcularGastoDiarioMedio(c, ts, agora, 7);
            r.Some? ==> Dura(r.value, SaldoRestante(c), m)
  {
    var r := DiasRestantes(c, ts, agora);
    if r.Some? {
      var m := CalcularGastoDiarioMedio(c, ts, agora, 7);
      var saldo := SaldoRestante(c);
      assert m > 0.0 && r.value == (saldo / m).Floor;
      PisoDoQuociente(saldo, m);
    }
  }

  /** A balance saldo lasts d whole days, and not d + 1, at m per day. */
  predicate Dura(d: int, saldo: real, m: real) {
    (d as real) * m <= saldo < ((d as real) + 1.0) * m
  }

  /** The floor of x / m brackets x between whole multiples of m. */
  lemma PisoDoQuociente(x: real, m: real)
    requires m > 0.0
    ensures Dura((x / m).Floor, x, m)
    ensures x >= 0.0 ==> (x / m).Floor >= 0
  {
    var q := x / m;
    var f := q.Floor as real;
    var g := f + 1.0;
    assert q * m == x;
    assert q - f >= 0.0 && g - q > 0.0;
    ProdutoNaoNegativo(q - f, m);
    ProdutoNaoNegativo(g - q, m);
    assert x - f * m == (q - f) * m;
    assert g * m - x == (g - q) * m;
    assert x < g * m;
    assert g == ((x / m).Floor as real) + 1.0;
  }

  lemma ProdutoNaoNegativo(a: real, b: real)
    requires a >= 0.0 && b > 0.0
    ensures a * b >= 0.0 && (a > 0.0 ==> a * b > 0.0)
  {
  }

  // ---------------------------------------------------------------- the alert

  /** The forecast lines: pace, run-out moment, and the day count when three or fewer days are left. */
  datatype Previsao = Previsao(ritmo: real, estouro: real, urgencia: Option<int>)

  datatype MensagemAlerta =
    | LimiteEstourado(excedente: real)
    | AlertaVermelho(saldo: real, previsao: Option<Previsao>)
    | AtencaoAmarela(saldo: real, previsao: Option<Previsao>)

  function PrevisaoDe(c: Caixinha, ts: seq<Transacao>, agora: DataHora, comUrgencia: bool): Option<Previsao>
    requires DataHoraValida(agora)
  {
    match PreverDataEstouro(c, ts, agora)
    case None => None
    case Some(e) =>
      var dias := DiasRestantes(c, ts, agora).value;
      Some(Previsao(CalcularGastoDiarioMedio(c, ts, agora, 7), e,
                    if comUrgencia && dias <= 3 then Some(dias) else None))
  }

  /**
   * gerar_mensagem_alerta: no alert for an envelope below 50%; over the limit the alert
   * states the excess; at 80% or more it forecasts when a forecast exists (flagging three or
   * fewer days left) and warns it is close to the limit otherwise; at 50% it forecasts if it can.
   */
  function GerarMensagemAlerta(c: Caixinha, ts: seq<Transacao>, agora: DataHora): (r: Option<MensagemAlerta>)
    requires DataHoraValida(agora)
    ensures r.None? <==> CalcularNivelAlerta(c) == NivelOk
    ensures r.Some? && r.value.LimiteEstourado? <==> CalcularNivelAlerta(c) == Estourado
    ensures r.Some? && r.value.AlertaVermelho? <==> CalcularNivelAlerta(c) == Alerta
    ensures r.Some? && r.value.AtencaoAmarela? <==> CalcularNivelAlerta(c) == Atencao
    ensures r.Some? && r.value.LimiteEstourado? ==>
              r.value.excedente >= 0.0 && (r.value.excedente == SaldoRestante(c) || r.value.excedente == -SaldoRestante(c))
    ensures r.Some? && !r.value.LimiteEstourado? ==>
              (r.value.previsao.Some? <==> PreverDataEstouro(c, ts, agora).Some?)
    ensures r.Some? && r.value.AlertaVermelho? && r.value.previsao.Some? ==>
              (r.value.previsao.value.urgencia.Some? <==> DiasRestantes(c, ts, agora).value <= 3)
    ensures r.Some? && r.value.AtencaoAmarela? && r.value.previsao.Some? ==> r.value.previsao.value.urgencia.None?
  {
    var saldo := SaldoRestante(c);
    match CalcularNivelAlerta(c)
    case NivelOk => None
    case Estourado => Some(LimiteEstourado(if saldo < 0.0 then -saldo else saldo))
    case Alerta => Some(AlertaVermelho(saldo, PrevisaoDe(c, ts, agora, true)))
    case Atencao => Some(AtencaoAmarela(saldo, PrevisaoDe(c, ts, agora, false)))
  }

  /** The alerts of a list of envelopes, in list order, skipping those that need none. */
  function AlertasDe(cs: seq<Caixinha>, ts: seq<Transacao>, agora: DataHora): seq<MensagemAlerta>
    requires DataHoraValida(agora)
  {
    if cs == [] then []
    else
      var m := GerarMensagemAlerta(cs[|cs| - 1], ts, agora);
      AlertasDe(cs[..|cs| - 1], ts, agora) + (if m.Some? then [m.value] else [])
  }

  /** verificar_alertas_usuario: one alert per envelope of the user that is not at level ok. */
  method VerificarAlertasUsuario(db: Database, u: int, agora: DataHora) returns (alertas: seq<MensagemAlerta>)
    requires DataHoraValida(agora)
    ensures alertas == AlertasDe(db.ListarCaixinhas(u), db.transacoes, agora)
  {
    var cs := db.ListarCaixinhas(u);
    alertas := [];
    var i := 0;
    while i < |cs|
      invariant 0 <= i <= |cs|
      invariant alertas == AlertasDe(cs[..i], db.transacoes, agora)
    {
      assert cs[..i + 1][..i] == cs[..i];
      var msg := GerarMensagemAlerta(cs[i], db.transacoes, agora);
      if msg.Some? {
        alertas := alertas + [msg.value];
      }
      i := i + 1;
    }
    assert cs[..i] == cs;
  }

  predicate PrecisaAlerta(c: Caixinha) {
    CalcularNivelAlerta(c) != NivelOk
  }

  /** The envelopes that need an alert, in order. */
  function QuemPrecisam(cs: seq<Caixinha>): (r: seq<Caixinha>)
    ensures forall c :: c in r <==> c in cs && PrecisaAlerta(c)
  {
    Filtrar(cs, (c: Caixinha) => PrecisaAlerta(c))
  }

  /** The alerts are exactly the messages of the envelopes that need one, one each, in the same order. */
  lemma {:induction false} AlertasUmPorCaixinha(cs: seq<Caixinha>, ts: seq<Transacao>, agora: DataHora)
    requires DataHoraValida(agora)
    ensures |AlertasDe(cs, ts, agora)| == |QuemPrecisam(cs)|
    ensures forall i :: 0 <= i < |QuemPrecisam(cs)| ==>
              Some(AlertasDe(cs, ts, agora)[i]) == GerarMensagemAlerta(QuemPrecisam(cs)[i], ts, agora)
  {
    if cs != [] {
      var ini := cs[..|cs| - 1];
      var x := cs[|cs| - 1];
      assert cs == ini + [x];
      AlertasUmPorCaixinha(ini, ts, agora);
      assert QuemPrecisam(cs) == QuemPrecisam(ini) + (if PrecisaAlerta(x) then [x] else []);
    }
  }

  // ---------------------------------------------------------------- tips

  datatype Dica =
    | RevisarLimite | AdiarGastos | RevisarTransacoes
    | ReduzirPorDia(valor: real) | EvitarNaoEssenciais | Alternativas
    | Monitorar | Margem

  /** The tip to cut 30% of the daily pace, given when a forecast leaves five days or fewer. */
  function CorteDiario(c: Caixinha, ts: seq<Transacao>, agora: DataHora): (r: seq<Dica>)
    requires DataHoraValida(agora)
    ensures |r| <= 1
    ensures |r| == 1 <==> DiasRestantes(c, ts, agora).Some? && DiasRestantes(c, ts, agora).value <= 5
    ensures |r| == 1 ==> r[0] == ReduzirPorDia(CalcularGastoDiarioMedio(c, ts, agora, 7) * 0.3)
  {
    match DiasRestantes(c, ts, agora)
    case Some(dias) =>
      if dias <= 5 then [ReduzirPorDia(CalcularGastoDiarioMedio(c, ts, agora, 7) * 0.3)] else []
    case None => []
  }

  /**
   * gerar_dicas_economia: no tips at level ok; three fixed tips over the limit; at 80%
   * two tips, preceded by the daily cut of 30% of the pace when at most five days are
   * left; two tips at 50%.
   */
  function GerarDicasEconomia(c: Caixinha, ts: seq<Transacao>, agora: DataHora): (r: Option<seq<Dica>>)
    requires DataHoraValida(agora)
    ensures r.None? <==> CalcularNivelAlerta(c) == NivelOk
    ensures CalcularNivelAlerta(c) == Estourado ==> r == Some([RevisarLimite, AdiarGastos, RevisarTransacoes])
    ensures CalcularNivelAlerta(c) == Atencao ==> r == Some([Monitorar, Margem])
    ensures CalcularNivelAlerta(c) == Alerta ==>
              r.Some? && 2 <= |r.value| <= 3 &&
              r.value[|r.value| - 2..] == [EvitarNaoEssenciais, Alternativas] &&
              (|r.value| == 3 <==> DiasRestantes(c, ts, agora).Some? && DiasRestantes(c, ts, agora).value <= 5) &&
              (|r.value| == 3 ==> r.value[0] == ReduzirPorDia(CalcularGastoDiarioMedio(c, ts, agora, 7) * 0.3))
  {
    match CalcularNivelAlerta(c)
    case NivelOk => None
    case Estourado => Some([RevisarLimite, AdiarGastos, RevisarTransacoes])
    case Alerta => Some(CorteDiario(c, ts, agora) + [EvitarNaoEssenciais, Alternativas])
    case Atencao => Some([Monitorar, Margem])
  }
}
