/**
 * Reminders for recurring bills (lembretes_recorrentes.py): the countdown to
 * the due date, the rule that decides whether to remind, the message branch,
 * and the daily sweep over every active bill, with the recurring-bill tables
 * held by an in-memory store.
 */
module Lembretes {
  import opened Comum
  import opened Calendario
  import opened Banco

  // ---------------------------------------------------------------- rows

  /**
   * A recurring bill. A bill without a default amount is a variable one: its amount
   * is set month by month on the payment row.
   */
  datatype GastoRecorrente = GastoRecorrente(
    id: int, userId: int, descricao: string, valorPadrao: Option<real>,
    diaVencimento: int, caixinhaId: Option<int>, ativo: bool)

  /** The payment row of one bill for one month. */
  datatype PagamentoRecorrente = PagamentoRecorrente(
    id: int, gastoId: int, userId: int, mes: int, ano: int, valor: Option<real>,
    pago: bool, dataPagamento: Option<DataHora>, ultimoLembrete: Option<DataHora>)

  predicate ValorVariavel(g: GastoRecorrente) {
    g.valorPadrao.None?
  }

  /** Python truthiness of an optional amount: None and 0.0 are false. */
  predicate ValorDefinido(v: Option<real>) {
    v.Some? && v.value != 0.0
  }

  // ---------------------------------------------------------------- countdown

  /** The due date: this month while its day has not passed, else the next month, December rolling into January. */
  function DataVencimento(hoje: Data, dia: int): (d: Data)
    ensures d.dia == dia
    ensures hoje.dia <= dia ==> d.ano == hoje.ano && d.mes == hoje.mes
    ensures hoje.dia > dia && hoje.mes == 12 ==> d.ano == hoje.ano + 1 && d.mes == 1
    ensures hoje.dia > dia && hoje.mes != 12 ==> d.ano == hoje.ano && d.mes == hoje.mes + 1
  {
    if hoje.dia > dia then
      (if hoje.mes == 12 then Data(hoje.ano + 1, 1, dia) else Data(hoje.ano, hoje.mes + 1, dia))
    else Data(hoje.ano, hoje.mes, dia)
  }

  /**
   * calcular_dias_ate_vencimento as written: (midnight of the due date - now).days.
   * None stands for the ValueError datetime() raises on a day the month does not have.
   */
  function DiasAteVencimentoComoEscrito(agora: DataHora, dia: int): (r: Option<int>)
    requires DataHoraValida(agora)
    ensures r.None? <==> !DataValida(DataVencimento(agora.data, dia))
    ensures r.Some? ==> var falta := Instante(DataHora(DataVencimento(agora.data, dia), 0)) - Instante(agora);
                        r.value * SegundosPorDia <= falta < (r.value + 1) * SegundosPorDia
  {
    var venc := DataVencimento(agora.data, dia);
    if DataValida(venc) then Some(DiasEntre(DataHora(venc, 0), agora)) else None
  }

  /** The countdown the reminder windows are written for: whole calendar days from today to the due date. */
  function DiasAteVencimento(agora: DataHora, dia: int): Option<int>
    requires DataHoraValida(agora)
  {
    var venc := DataVencimento(agora.data, dia);
    if DataValida(venc) then Some(Ordinal(venc) - Ordinal(agora.data)) else None
  }

  /**
   * The countdown is the calendar gap to the due day, never negative and at most 30;
   * it is 0 exactly on the due day, and it fails only for a day the due month lacks.
   */
  lemma DiasAteVencimentoCalendario(agora: DataHora, dia: int)
    requires DataHoraValida(agora)
    ensures var h := agora.data;
            var r := DiasAteVencimento(agora, dia);
            (r.None? <==> !DataValida(DataVencimento(h, dia))) &&
            (r.Some? ==>
               r.value == (if h.dia <= dia then dia - h.dia else DiasNoMes(h.ano, h.mes) - h.dia + dia) &&
               0 <= r.value <= 30 &&
               (r.value == 0 <==> h.dia == dia))
  {
    var h := agora.data;
    if h.dia > dia {
      OrdinalMesSeguinte(h.ano, h.mes, h.dia, dia);
    }
  }

  /** As written, the count comes out one short whenever the sweep runs after midnight. */
  lemma ComoEscritoUmDiaAntes(agora: DataHora, dia: int)
    requires DataHoraValida(agora)
    ensures DiasAteVencimentoComoEscrito(agora, dia).Some? <==> DiasAteVencimento(agora, dia).Some?
    ensures DiasAteVencimento(agora, dia).Some? ==>
              DiasAteVencimentoComoEscrito(agora, dia).value ==
              DiasAteVencimento(agora, dia).value - (if agora.segundos > 0 then 1 else 0)
  {
    var venc := DataVencimento(agora.data, dia);
    if DataValida(venc) {
      var q := Ordinal(venc) - Ordinal(agora.data);
      var s := agora.segundos;
      assert Instante(DataHora(venc, 0)) - Instante(agora) == q * SegundosPorDia - s;
      if s > 0 {
        assert q * SegundosPorDia - s == (q - 1) * SegundosPorDia + (SegundosPorDia - s);
        DivisaoPorDia(q - 1, SegundosPorDia - s);
      } else {
        DivisaoPorDia(q, 0);
      }
    }
  }

  /**
   * At the 09:00 sweep a bill due on the 10th counts 1 day on the 8th (the calendar
   * says 2) and -1 on the 10th itself, which the sweep skips instead of sending
   * the due-today reminder.
   */
  lemma ComoEscritoContraExemplo()
    ensures DiasAteVencimentoComoEscrito(DataHora(Data(2024, 3, 8), 9 * 3600), 10) == Some(1)
    ensures DiasAteVencimento(DataHora(Data(2024, 3, 8), 9 * 3600), 10) == Some(2)
    ensures DiasAteVencimentoComoEscrito(DataHora(Data(2024, 3, 10), 9 * 3600), 10) == Some(-1)
    ensures DiasAteVencimento(DataHora(Data(2024, 3, 10), 9 * 3600), 10) == Some(0)
  {
    ComoEscritoUmDiaAntes(DataHora(Data(2024, 3, 8), 9 * 3600), 10);
    ComoEscritoUmDiaAntes(DataHora(Data(2024, 3, 10), 9 * 3600), 10);
  }

  // ---------------------------------------------------------------- whether to remind

  /** deve_enviar_lembrete: never for a paid bill, always on the due day, at most once a day in the five days before. */
  function DeveEnviarLembrete(p: PagamentoRecorrente, dias: int, agora: DataHora): (r: bool)
    requires DataHoraValida(agora)
    requires p.ultimoLembrete.Some? ==> DataHoraValida(p.ultimoLembrete.value)
    ensures r ==> !p.pago && 0 <= dias <= 5
    ensures !p.pago && dias == 0 ==> r
    ensures !p.pago && 1 <= dias <= 5 && p.ultimoLembrete.None? ==> r
  {
    if p.pago then false
    else if dias == 0 then true
    else if 1 <= dias <= 5 then
      p.ultimoLembrete.None? || DiasEntre(agora, p.ultimoLembrete.value) >= 1
    else false
  }

  /**
   * The reminder rule in full: unpaid, and either due today or due in one to five
   * days with no reminder yet or the last one at least 24 hours ago.
   */
  lemma DeveEnviarLembreteRegra(p: PagamentoRecorrente, dias: int, agora: DataHora)
    requires DataHoraValida(agora)
    requires p.ultimoLembrete.Some? ==> DataHoraValida(p.ultimoLembrete.value)
    ensures DeveEnviarLembrete(p, dias, agora) <==>
              !p.pago &&
              (dias == 0 ||
               (1 <= dias <= 5 &&
                (p.ultimoLembrete.None? || Instante(agora) - Instante(p.ultimoLembrete.value) >= SegundosPorDia)))
  {
    if p.ultimoLembrete.Some? {
      DiasEntrePeloMenosUm(agora, p.ultimoLembrete.value);
    }
  }

  /** A reminder stamped at t is not repeated before t + 24h while the bill is still days away. */
  lemma NoMaximoUmPorDia(p: PagamentoRecorrente, dias: int, t: DataHora, agora: DataHora)
    requires DataHoraValida(agora) && DataHoraValida(t)
    requires 1 <= dias <= 5 && Instante(agora) - Instante(t) < SegundosPorDia
    ensures !DeveEnviarLembrete(p.(ultimoLembrete := Some(t)), dias, agora)
  {
    DeveEnviarLembreteRegra(p.(ultimoLembrete := Some(t)), dias, agora);
  }

  // ---------------------------------------------------------------- the message

  /** Which opening the reminder has. */
  datatype Aviso = VenceHoje | VenceAmanha | VenceEm(dias: int)

  /** The amount line: the amount itself, or the warning that this month's amount is not set. */
  datatype ValorExibido = Valor(valor: real) | ValorNaoDefinido

  datatype Mensagem = Mensagem(
    aviso: Aviso, descricao: string, diaExibido: int, mesExibido: int,
    caixinha: string, valor: ValorExibido)

  datatype ErroLembrete = VencimentoInvalido(gastoId: int) | CaixinhaAusente(gastoId: int)

  /** gasto.caixinha.nome, absent when the bill has no envelope or the envelope row is gone. */
  function NomeCaixinha(g: GastoRecorrente, cs: seq<Caixinha>): (r: Option<string>)
    ensures r.Some? <==> g.caixinhaId.Some? && exists i :: 0 <= i < |cs| && cs[i].id == g.caixinhaId.value
  {
    if g.caixinhaId.None? then None
    else match IndiceCaixinha(cs, g.caixinhaId.value)
      case None => None
      case Some(k) => Some(cs[k].nome)
  }

  function ValorDaMensagem(g: GastoRecorrente, p: PagamentoRecorrente): ValorExibido {
    if ValorVariavel(g) then (if ValorDefinido(p.valor) then Valor(p.valor.value) else ValorNaoDefinido)
    else Valor(g.valorPadrao.value)
  }

  /** gerar_mensagem_lembrete as written: the date line always shows the current month. */
  function GerarMensagemLembreteComoEscrito(g: GastoRecorrente, p: PagamentoRecorrente, dias: int, agora: DataHora, cs: seq<Caixinha>): (r: Result<Mensagem, ErroLembrete>)
    ensures r.Err? <==> NomeCaixinha(g, cs).None?
    ensures r.Err? ==> r.error == CaixinhaAusente(g.id)
    ensures r.Ok? ==> r.value.caixinha == NomeCaixinha(g, cs).value && r.value.descricao == g.descricao
    ensures r.Ok? ==> (r.value.aviso == VenceHoje <==> dias == 0) && (r.value.aviso == VenceAmanha <==> dias == 1)
    ensures r.Ok? && dias != 0 && dias != 1 ==> r.value.aviso == VenceEm(dias)
    ensures r.Ok? && ValorVariavel(g) ==> (r.value.valor == ValorNaoDefinido <==> !ValorDefinido(p.valor))
    ensures r.Ok? && !ValorVariavel(g) ==> r.value.valor == Valor(g.valorPadrao.value)
    ensures r.Ok? ==> r.value.diaExibido == g.diaVencimento && r.value.mesExibido == agora.data.mes
  {
    match NomeCaixinha(g, cs)
    case None => Err(CaixinhaAusente(g.id))
    case Some(nome) =>
      var aviso := if dias == 0 then VenceHoje else if dias == 1 then VenceAmanha else VenceEm(dias);
      Ok(Mensagem(aviso, g.descricao, g.diaVencimento, agora.data.mes, nome, ValorDaMensagem(g, p)))
  }

  /**
   * gerar_mensagem_lembrete: the due-today message exactly when dias is 0, "tomorrow"
   * for 1; a variable bill without a set amount gets the warning, a fixed bill shows
   * its default amount. The date line shows the month the bill falls due in.
   */
  function GerarMensagemLembrete(g: GastoRecorrente, p: PagamentoRecorrente, dias: int, agora: DataHora, cs: seq<Caixinha>): (r: Result<Mensagem, ErroLembrete>)
    ensures r.Err? <==> NomeCaixinha(g, cs).None?
    ensures r.Ok? ==> r.value.caixinha == NomeCaixinha(g, cs).value && r.value.descricao == g.descricao
    ensures r.Ok? ==> (r.value.aviso == VenceHoje <==> dias == 0)
    ensures r.Ok? ==> (r.value.aviso == VenceAmanha <==> dias == 1)
    ensures r.Ok? && dias != 0 && dias != 1 ==> r.value.aviso == VenceEm(dias)
    ensures r.Ok? && ValorVariavel(g) ==> (r.value.valor == ValorNaoDefinido <==> !ValorDefinido(p.valor))
    ensures r.Ok? && !ValorVariavel(g) ==> r.value.valor == Valor(g.valorPadrao.value)
    ensures r.Ok? ==> r.value.diaExibido == g.diaVencimento &&
                      r.value.mesExibido == DataVencimento(agora.data, g.diaVencimento).mes
  {
    match GerarMensagemLembreteComoEscrito(g, p, dias, agora, cs)
    case Err(e) => Err(e)
    case Ok(m) => Ok(m.(mesExibido := DataVencimento(agora.data, g.diaVencimento).mes))
  }

  /** As written, two days before a bill due on the 2nd the message dates it in the wrong month. */
  lemma MesExibidoContraExemplo()
    ensures var g := GastoRecorrente(1, 7, "Aluguel", Some(1500.0), 2, Some(3), true);
            var p := PagamentoRecorrente(1, 1, 7, 1, 2024, None, false, None, None);
            var cs := [Caixinha(3, 7, "Casa", 2000.0, 0.0, DataHora(Data(2024, 1, 1), 0))];
            var agora := DataHora(Data(2024, 1, 31), 9 * 3600);
            DiasAteVencimento(agora, 2) == Some(2) &&
            GerarMensagemLembreteComoEscrito(g, p, 2, agora, cs).value.mesExibido == 1 &&
            DataVencimento(agora.data, 2).mes == 2 &&
            GerarMensagemLembrete(g, p, 2, agora, cs).value.mesExibido == 2
  {
    DiasAteVencimentoCalendario(DataHora(Data(2024, 1, 31), 9 * 3600), 2);
  }

  // ---------------------------------------------------------------- which countdown the sweep runs

  /**
   * The sweep either runs the countdown and the month line as the source writes them
   * (DiasAteVencimentoComoEscrito, GerarMensagemLembreteComoEscrito), or the corrected
   * ones (DiasAteVencimento, GerarMensagemLembrete).
   */
  datatype Versao = ComoEscrito | Corrigida

  function Contagem(v: Versao, agora: DataHora, dia: int): Option<int>
    requires DataHoraValida(agora)
  {
    match v
    case ComoEscrito => DiasAteVencimentoComoEscrito(agora, dia)
    case Corrigida => DiasAteVencimento(agora, dia)
  }

  function MensagemDe(v: Versao, g: GastoRecorrente, p: PagamentoRecorrente, dias: int, agora: DataHora, cs: seq<Caixinha>): Result<Mensagem, ErroLembrete> {
    match v
    case ComoEscrito => GerarMensagemLembreteComoEscrito(g, p, dias, agora, cs)
    case Corrigida => GerarMensagemLembrete(g, p, dias, agora, cs)
  }

  /** The two versions differ only in the countdown and in the month the message shows. */
  lemma VersoesDiferemNaContagem(g: GastoRecorrente, p: PagamentoRecorrente, dias: int, agora: DataHora, cs: seq<Caixinha>)
    requires DataHoraValida(agora)
    ensures Contagem(ComoEscrito, agora, g.diaVencimento).Some? <==> Contagem(Corrigida, agora, g.diaVencimento).Some?
    ensures var a := MensagemDe(ComoEscrito, g, p, dias, agora, cs);
            var b := MensagemDe(Corrigida, g, p, dias, agora, cs);
            a.Ok? == b.Ok? && (a.Ok? ==> b.value == a.value.(mesExibido := DataVencimento(agora.data, g.diaVencimento).mes))
  {
    ComoEscritoUmDiaAntes(agora, g.diaVencimento);
  }

  // ---------------------------------------------------------------- the store

  predicate IdsPagamentoUnicos(ps: seq<PagamentoRecorrente>) {
    forall i, j :: 0 <= i < j < |ps| ==> ps[i].id != ps[j].id
  }

  function IdDoGasto(g: GastoRecorrente): int {
    g.id
  }

  /** The bill table's primary key. */
  predicate IdsGastoUnicos(gs: seq<GastoRecorrente>) {
    ChavesDistintas(gs, IdDoGasto)
  }

  lemma GastoPorId(gs: seq<GastoRecorrente>, g1: GastoRecorrente, g2: GastoRecorrente)
    requires IdsGastoUnicos(gs) && g1 in gs && g2 in gs && g1.id == g2.id
    ensures g1 == g2
  {
    var i :| 0 <= i < |gs| && gs[i] == g1;
    var j :| 0 <= j < |gs| && gs[j] == g2;
    assert i < j ==> IdDoGasto(gs[i]) != IdDoGasto(gs[j]);
    assert j < i ==> IdDoGasto(gs[j]) != IdDoGasto(gs[i]);
  }

  /** Every stamped reminder time is a real instant. */
  predicate LembretesValidos(ps: seq<PagamentoRecorrente>) {
    forall k :: 0 <= k < |ps| && ps[k].ultimoLembrete.Some? ==> DataHoraValida(ps[k].ultimoLembrete.value)
  }

  function ProximoIdPagamento(ps: seq<PagamentoRecorrente>): int {
    MaiorId(ps, (p: PagamentoRecorrente) => p.id) + 1
  }

  /** The payment row of bill gastoId and user u for (mes, ano). */
  predicate DoMes(p: PagamentoRecorrente, gastoId: int, u: int, mes: int, ano: int) {
    p.gastoId == gastoId && p.userId == u && p.mes == mes && p.ano == ano
  }

  /** Where .filter_by(gasto_id, user_id, mes, ano).first() finds its row: the first match, none exactly when no row matches. */
  function IndicePagamento(ps: seq<PagamentoRecorrente>, gastoId: int, u: int, mes: int, ano: int): (k: Option<nat>)
    ensures k.Some? ==> k.value < |ps| && DoMes(ps[k.value], gastoId, u, mes, ano) &&
                        forall i :: 0 <= i < k.value ==> !DoMes(ps[i], gastoId, u, mes, ano)
    ensures k.None? <==> forall i :: 0 <= i < |ps| ==> !DoMes(ps[i], gastoId, u, mes, ano)
  {
    if ps == [] then None
    else if DoMes(ps[0], gastoId, u, mes, ano) then Some(0)
    else match IndicePagamento(ps[1..], gastoId, u, mes, ano)
      case None => None
      case Some(k) => Some(k + 1)
  }

  /** Where query(PagamentoRecorrente).get(id) finds its row. */
  function IdDoPagamento(p: PagamentoRecorrente): int {
    p.id
  }

  function IndicePagamentoPorId(ps: seq<PagamentoRecorrente>, id: int): (k: Option<nat>)
    ensures k.Some? ==> k.value < |ps| && ps[k.value].id == id
    ensures k.None? <==> forall i :: 0 <= i < |ps| ==> ps[i].id != id
  {
    IndicePorId(ps, IdDoPagamento, id)
  }

  /** With unique ids, get(id) of a row's own id finds that row. */
  lemma PagamentoPorIdUnico(ps: seq<PagamentoRecorrente>, k: nat)
    requires IdsPagamentoUnicos(ps) && k < |ps|
    ensures IndicePagamentoPorId(ps, ps[k].id) == Some(k)
  {
    assert ChavesDistintas(ps, IdDoPagamento);
    IndicePorIdUnico(ps, IdDoPagamento, k);
  }

  /**
   * The row obter_ou_criar_pagamento_mes hands back for bill g in the month of agora:
   * the existing one, or the fresh unpaid row it would append.
   */
  function PagamentoVisto(ps: seq<PagamentoRecorrente>, g: GastoRecorrente, agora: DataHora): (p: PagamentoRecorrente)
    ensures DoMes(p, g.id, g.userId, agora.data.mes, agora.data.ano)
    ensures LembretesValidos(ps) && p.ultimoLembrete.Some? ==> DataHoraValida(p.ultimoLembrete.value)
  {
    match IndicePagamento(ps, g.id, g.userId, agora.data.mes, agora.data.ano)
    case Some(k) => ps[k]
    case None => PagamentoRecorrente(ProximoIdPagamento(ps), g.id, g.userId, agora.data.mes, agora.data.ano,
                                     None, false, None, None)
  }

  function FiltroUsuario(u: int): GastoRecorrente -> bool {
    (g: GastoRecorrente) => g.userId == u && g.ativo
  }

  /** The active bills of user u, in table order. */
  function DoUsuario(gs: seq<GastoRecorrente>, u: int): seq<GastoRecorrente> {
    Filtrar(gs, FiltroUsuario(u))
  }

  /** The user's active bills, each once. */
  lemma DoUsuarioFatos(gs: seq<GastoRecorrente>, u: int)
    requires IdsGastoUnicos(gs)
    ensures forall g :: g in DoUsuario(gs, u) <==> g in gs && g.userId == u && g.ativo
    ensures var xs := DoUsuario(gs, u); forall i, j :: 0 <= i < j < |xs| ==> xs[i].id != xs[j].id
  {
    FiltrarChavesDistintas(gs, FiltroUsuario(u), IdDoGasto);
    var xs := DoUsuario(gs, u);
    assert ChavesDistintas(xs, IdDoGasto);
    forall i, j | 0 <= i < j < |xs|
      ensures xs[i].id != xs[j].id
    {
      assert IdDoGasto(xs[i]) != IdDoGasto(xs[j]);
    }
  }

  /** The recurring-bill tables. */
  class Recorrentes {
    var gastos: seq<GastoRecorrente>
    var pagamentos: seq<PagamentoRecorrente>

    ghost predicate Valid()
      reads this
    {
      IdsGastoUnicos(gastos) && IdsPagamentoUnicos(pagamentos) && LembretesValidos(pagamentos)
    }

    constructor(gs: seq<GastoRecorrente>)
      requires IdsGastoUnicos(gs)
      ensures Valid() && gastos == gs && pagamentos == []
    {
      gastos := gs;
      pagamentos := [];
    }

    /** listar_gastos_recorrentes(user_id, apenas_ativos=True). */
    function ListarGastosRecorrentes(u: int): (r: seq<GastoRecorrente>)
      reads this
      ensures forall g :: g in r <==> g in gastos && g.userId == u && g.ativo
    {
      DoUsuario(gastos, u)
    }

    /** obter_ou_criar_pagamento_mes: the bill's payment row for the month of agora, created unpaid when missing. */
    method ObterOuCriarPagamentoMes(gastoId: int, u: int, agora: DataHora) returns (p: PagamentoRecorrente, k: nat)
      requires Valid()
      modifies this
      ensures Valid() && gastos == old(gastos)
      ensures k < |pagamentos| && pagamentos[k] == p
      ensures p.gastoId == gastoId && p.userId == u && p.mes == agora.data.mes && p.ano == agora.data.ano
      ensures match IndicePagamento(old(pagamentos), gastoId, u, agora.data.mes, agora.data.ano)
              case Some(k0) => k == k0 && pagamentos == old(pagamentos)
              case None => k == |old(pagamentos)| &&
                           p == PagamentoRecorrente(ProximoIdPagamento(old(pagamentos)), gastoId, u,
                                                    agora.data.mes, agora.data.ano, None, false, None, None) &&
                           pagamentos == old(pagamentos) + [p]
    {
      var achado := IndicePagamento(pagamentos, gastoId, u, agora.data.mes, agora.data.ano);
      if achado.Some? {
        k := achado.value;
        p := pagamentos[k];
      } else {
        p := PagamentoRecorrente(ProximoIdPagamento(pagamentos), gastoId, u,
                                 agora.data.mes, agora.data.ano, None, false, None, None);
        k := |pagamentos|;
        pagamentos := pagamentos + [p];
      }
    }

    /** atualizar_ultimo_lembrete: stamps the payment with the time of the reminder. */
    method AtualizarUltimoLembrete(pagamentoId: int, agora: DataHora)
      requires Valid() && DataHoraValida(agora)
      modifies this
      ensures Valid() && gastos == old(gastos)
      ensures match IndicePagamentoPorId(old(pagamentos), pagamentoId)
              case Some(k) => pagamentos == old(pagamentos)[k := old(pagamentos)[k].(ultimoLembrete := Some(agora))]
              case None => pagamentos == old(pagamentos)
    {
      var k := IndicePagamentoPorId(pagamentos, pagamentoId);
      if k.Some? {
        pagamentos := pagamentos[k.value := pagamentos[k.value].(ultimoLembrete := Some(agora))];
      }
    }
  }

  // ---------------------------------------------------------------- what the sweep does with one bill

  /** The bill's countdown falls inside the reminder window [0, 5]. */
  predicate NaJanelaDias(v: Versao, g: GastoRecorrente, agora: DataHora)
    requires DataHoraValida(agora)
  {
    var d := Contagem(v, agora, g.diaVencimento);
    d.Some? && 0 <= d.value <= 5
  }

  /**
   * Whether the sweep reminds about bill g, judged on the payment rows ps as they stand
   * when the sweep begins: inside the window, the rule holds for its payment, and the
   * send goes through.
   */
  predicate Elegivel(v: Versao, g: GastoRecorrente, ps: seq<PagamentoRecorrente>, agora: DataHora, falhas: set<int>)
    requires DataHoraValida(agora) && LembretesValidos(ps)
  {
    NaJanelaDias(v, g, agora) &&
    DeveEnviarLembrete(PagamentoVisto(ps, g, agora), Contagem(v, agora, g.diaVencimento).value, agora) &&
    g.id !in falhas
  }

  /** The message a reminder about g carries, or the error building it raises. */
  function MensagemPrevista(v: Versao, g: GastoRecorrente, ps: seq<PagamentoRecorrente>, cs: seq<Caixinha>, agora: DataHora): Result<Mensagem, ErroLembrete>
    requires DataHoraValida(agora)
  {
    var d := Contagem(v, agora, g.diaVencimento);
    if d.None? then Err(VencimentoInvalido(g.id)) else MensagemDe(v, g, PagamentoVisto(ps, g, agora), d.value, agora, cs)
  }

  /**
   * Whether handling g raises out of the sweep: datetime() rejects the due day, or a
   * reminder is due for a bill whose envelope is missing.
   */
  predicate Aborta(v: Versao, g: GastoRecorrente, ps: seq<PagamentoRecorrente>, cs: seq<Caixinha>, agora: DataHora)
    requires DataHoraValida(agora) && LembretesValidos(ps)
  {
    Contagem(v, agora, g.diaVencimento).None? ||
    (NaJanelaDias(v, g, agora) &&
     DeveEnviarLembrete(PagamentoVisto(ps, g, agora), Contagem(v, agora, g.diaVencimento).value, agora) &&
     MensagemPrevista(v, g, ps, cs, agora).Err?)
  }

  /** Rows of bill gid in b are those of a, in the same place; a only gains rows of other bills. */
  predicate Intocado(a: seq<PagamentoRecorrente>, b: seq<PagamentoRecorrente>, gid: int) {
    |a| <= |b| &&
    (forall k :: 0 <= k < |a| && (a[k].gastoId == gid || b[k].gastoId == gid) ==> b[k] == a[k]) &&
    (forall k :: |a| <= k < |b| ==> b[k].gastoId != gid)
  }

  lemma IntocadoTransitivo(a: seq<PagamentoRecorrente>, b: seq<PagamentoRecorrente>, c: seq<PagamentoRecorrente>, gid: int)
    requires Intocado(a, b, gid) && Intocado(b, c, gid)
    ensures Intocado(a, c, gid)
  {
  }

  /** While the rows of bill g are untouched, the lookup finds the same row. */
  lemma IndicePagamentoEstavel(a: seq<PagamentoRecorrente>, b: seq<PagamentoRecorrente>, g: GastoRecorrente, mes: int, ano: int)
    requires Intocado(a, b, g.id)
    ensures IndicePagamento(b, g.id, g.userId, mes, ano) == IndicePagamento(a, g.id, g.userId, mes, ano)
  {
    var ka := IndicePagamento(a, g.id, g.userId, mes, ano);
    var kb := IndicePagamento(b, g.id, g.userId, mes, ano);
    if kb.Some? {
      var j := kb.value;
      assert j < |a|;
      assert b[j] == a[j];
      assert ka.Some? && ka.value <= j;
      var i := ka.value;
      assert b[i] == a[i];
      assert DoMes(b[i], g.id, g.userId, mes, ano);
    } else {
      forall i | 0 <= i < |a|
        ensures !DoMes(a[i], g.id, g.userId, mes, ano)
      {
        assert !DoMes(b[i], g.id, g.userId, mes, ano);
      }
    }
  }

  /** The rule, the message and the abort of a bill depend only on the rows of that bill. */
  lemma DesfechoEstavel(v: Versao, g: GastoRecorrente, a: seq<PagamentoRecorrente>, b: seq<PagamentoRecorrente>,
                        cs: seq<Caixinha>, agora: DataHora, falhas: set<int>)
    requires DataHoraValida(agora) && LembretesValidos(a) && LembretesValidos(b) && Intocado(a, b, g.id)
    ensures PagamentoVisto(b, g, agora) == PagamentoVisto(a, g, agora).(id := PagamentoVisto(b, g, agora).id)
    ensures Elegivel(v, g, b, agora, falhas) == Elegivel(v, g, a, agora, falhas)
    ensures MensagemPrevista(v, g, b, cs, agora) == MensagemPrevista(v, g, a, cs, agora)
    ensures Aborta(v, g, b, cs, agora) == Aborta(v, g, a, cs, agora)
  {
    IndicePagamentoEstavel(a, b, g, agora.data.mes, agora.data.ano);
  }

  // ---------------------------------------------------------------- the sweep, as functions

  /** One reminder handed to the messenger. */
  datatype Envio = Envio(userId: int, gastoId: int, mensagem: Mensagem)

  function GastosEnviados(es: seq<Envio>): set<int> {
    set e | e in es :: e.gastoId
  }

  /** At most one reminder per bill. */
  predicate EnviosDistintos(es: seq<Envio>) {
    forall i, j :: 0 <= i < j < |es| ==> es[i].gastoId != es[j].gastoId
  }

  /** What the sweep carries from bill to bill: the payment rows, the reminders sent, and the error that stopped it. */
  datatype Estado = Estado(pagamentos: seq<PagamentoRecorrente>, enviados: seq<Envio>, erro: Option<ErroLembrete>)

  /** The rows after obter_ou_criar_pagamento_mes for bill g: unchanged when the month's row exists, else with the fresh row appended. */
  function ComPagamento(ps: seq<PagamentoRecorrente>, g: GastoRecorrente, agora: DataHora): seq<PagamentoRecorrente> {
    if IndicePagamento(ps, g.id, g.userId, agora.data.mes, agora.data.ano).Some? then ps
    else ps + [PagamentoVisto(ps, g, agora)]
  }

  /** The rows after atualizar_ultimo_lembrete on the month's row of bill g. */
  function Carimbar(ps: seq<PagamentoRecorrente>, g: GastoRecorrente, agora: DataHora): seq<PagamentoRecorrente> {
    match IndicePagamento(ps, g.id, g.userId, agora.data.mes, agora.data.ano)
    case Some(k) => ps[k := ps[k].(ultimoLembrete := Some(agora))]
    case None => ps
  }

  /**
   * The body of the inner loop for one bill g: skipped outside the window; otherwise its
   * payment row is fetched or created and, when the rule says so, the reminder is built,
   * sent unless the send fails, and the row stamped.
   */
  function PassoGasto(v: Versao, g: GastoRecorrente, cs: seq<Caixinha>, agora: DataHora, falhas: set<int>,
                      ps: seq<PagamentoRecorrente>, es: seq<Envio>): (r: Estado)
    requires DataHoraValida(agora) && LembretesValidos(ps)
    ensures LembretesValidos(r.pagamentos)
  {
    var d := Contagem(v, agora, g.diaVencimento);
    if d.None? then Estado(ps, es, Some(VencimentoInvalido(g.id)))
    else if !(0 <= d.value <= 5) then Estado(ps, es, None)
    else
      var ps1 := ComPagamento(ps, g, agora);
      ComPagamentoFatos(ps, g, agora);
      if !DeveEnviarLembrete(PagamentoVisto(ps, g, agora), d.value, agora) then Estado(ps1, es, None)
      else match MensagemPrevista(v, g, ps, cs, agora)
        case Err(e) => Estado(ps1, es, Some(e))
        case Ok(m) =>
          if g.id in falhas then Estado(ps1, es, None)
          else
            CarimbarFatos(ps1, g, agora);
            Estado(Carimbar(ps1, g, agora), es + [Envio(g.userId, g.id, m)], None)
  }

  lemma ComPagamentoFatos(ps: seq<PagamentoRecorrente>, g: GastoRecorrente, agora: DataHora)
    ensures var ps1 := ComPagamento(ps, g, agora);
            var k := IndicePagamento(ps1, g.id, g.userId, agora.data.mes, agora.data.ano);
            k.Some? && ps1[k.value] == PagamentoVisto(ps, g, agora) && PagamentoVisto(ps1, g, agora) == PagamentoVisto(ps, g, agora) &&
            (k.value == |ps| <==> IndicePagamento(ps, g.id, g.userId, agora.data.mes, agora.data.ano).None?) &&
            |ps| <= |ps1| && ps1[..|ps|] == ps &&
            (forall gid :: gid != g.id ==> Intocado(ps, ps1, gid)) &&
            (LembretesValidos(ps) ==> LembretesValidos(ps1))
  {
    var m := agora.data.mes;
    var a := agora.data.ano;
    if IndicePagamento(ps, g.id, g.userId, m, a).None? {
      IndiceAposCriar(ps, PagamentoVisto(ps, g, agora), g, m, a);
    }
  }

  lemma CarimbarFatos(ps: seq<PagamentoRecorrente>, g: GastoRecorrente, agora: DataHora)
    requires IndicePagamento(ps, g.id, g.userId, agora.data.mes, agora.data.ano).Some?
    ensures var ps2 := Carimbar(ps, g, agora);
            var k := IndicePagamento(ps, g.id, g.userId, agora.data.mes, agora.data.ano).value;
            ps2 == ps[k := ps[k].(ultimoLembrete := Some(agora))] &&
            IndicePagamento(ps2, g.id, g.userId, agora.data.mes, agora.data.ano) == Some(k) &&
            PagamentoVisto(ps2, g, agora) == PagamentoVisto(ps, g, agora).(ultimoLembrete := Some(agora)) &&
            (forall gid :: gid != g.id ==> Intocado(ps, ps2, gid)) &&
            (LembretesValidos(ps) && DataHoraValida(agora) ==> LembretesValidos(ps2))
  {
    var k := IndicePagamento(ps, g.id, g.userId, agora.data.mes, agora.data.ano).value;
    IndiceAposCarimbo(ps, k, agora, g, agora.data.mes, agora.data.ano);
  }

  /** The inner loop over the bills xs, in order, stopping at the first error. */
  function PassoGastos(v: Versao, xs: seq<GastoRecorrente>, cs: seq<Caixinha>, agora: DataHora, falhas: set<int>, s: Estado): (r: Estado)
    requires DataHoraValida(agora) && LembretesValidos(s.pagamentos)
    ensures LembretesValidos(r.pagamentos)
    decreases |xs|
  {
    if xs == [] then s
    else
      var r0 := PassoGastos(v, xs[..|xs| - 1], cs, agora, falhas, s);
      if r0.erro.Some? then r0 else PassoGasto(v, xs[|xs| - 1], cs, agora, falhas, r0.pagamentos, r0.enviados)
  }

  /** The active bills, in table order: .filter_by(ativo=1).all(). */
  function Ativos(gs: seq<GastoRecorrente>): seq<GastoRecorrente> {
    Filtrar(gs, (g: GastoRecorrente) => g.ativo)
  }

  function UsuariosAtivos(gs: seq<GastoRecorrente>): set<int> {
    set g | g in gs && g.ativo :: g.userId
  }

  /** The active bills of the users in us. */
  function DosUsuarios(gs: seq<GastoRecorrente>, us: set<int>): set<GastoRecorrente> {
    set g | g in gs && g.ativo && g.userId in us
  }

  /** Where the outer loop stands: the inner loop's state and the users processed so far. */
  datatype Varrido = Varrido(estado: Estado, visitados: seq<int>)

  /**
   * The outer loop over the active bills ativos: the first bill of a user not yet
   * processed runs the inner loop over all that user's active bills in gs.
   */
  function Varrer(v: Versao, ativos: seq<GastoRecorrente>, gs: seq<GastoRecorrente>, cs: seq<Caixinha>, agora: DataHora,
                  falhas: set<int>, inicio: seq<PagamentoRecorrente>): (r: Varrido)
    requires DataHoraValida(agora) && LembretesValidos(inicio)
    ensures LembretesValidos(r.estado.pagamentos)
    decreases |ativos|
  {
    if ativos == [] then Varrido(Estado(inicio, [], None), [])
    else
      var r0 := Varrer(v, ativos[..|ativos| - 1], gs, cs, agora, falhas, inicio);
      var u := ativos[|ativos| - 1].userId;
      if r0.estado.erro.Some? || u in r0.visitados then r0
      else
        var s1 := PassoGastos(v, DoUsuario(gs, u), cs, agora, falhas, r0.estado);
        Varrido(s1, if s1.erro.Some? then r0.visitados else r0.visitados + [u])
  }

  lemma PassoGastosSnoc(v: Versao, xs: seq<GastoRecorrente>, x: GastoRecorrente, cs: seq<Caixinha>, agora: DataHora,
                        falhas: set<int>, s: Estado)
    requires DataHoraValida(agora) && LembretesValidos(s.pagamentos)
    ensures var r0 := PassoGastos(v, xs, cs, agora, falhas, s);
            PassoGastos(v, xs + [x], cs, agora, falhas, s) ==
            (if r0.erro.Some? then r0 else PassoGasto(v, x, cs, agora, falhas, r0.pagamentos, r0.enviados))
  {
    assert (xs + [x])[..|xs|] == xs;
  }

  /** Handling a bill only appends to the reminders already sent. */
  lemma PassoGastoDeslocado(v: Versao, g: GastoRecorrente, cs: seq<Caixinha>, agora: DataHora, falhas: set<int>,
                            ps: seq<PagamentoRecorrente>, es: seq<Envio>)
    requires DataHoraValida(agora) && LembretesValidos(ps)
    ensures var r := PassoGasto(v, g, cs, agora, falhas, ps, []);
            PassoGasto(v, g, cs, agora, falhas, ps, es) == Estado(r.pagamentos, es + r.enviados, r.erro)
  {
    assert es + [] == es;
    forall m: Mensagem
      ensures es + [Envio(g.userId, g.id, m)] == es + ([] + [Envio(g.userId, g.id, m)])
    {
    }
  }

  /** The inner loop only appends to the reminders already sent. */
  lemma {:induction false} PassoGastosDeslocado(v: Versao, xs: seq<GastoRecorrente>, cs: seq<Caixinha>, agora: DataHora,
                                                falhas: set<int>, ps: seq<PagamentoRecorrente>, es: seq<Envio>)
    requires DataHoraValida(agora) && LembretesValidos(ps)
    ensures var r := PassoGastos(v, xs, cs, agora, falhas, Estado(ps, [], None));
            PassoGastos(v, xs, cs, agora, falhas, Estado(ps, es, None)) == Estado(r.pagamentos, es + r.enviados, r.erro)
    decreases |xs|
  {
    if xs == [] {
      assert es + [] == es;
    } else {
      var ini := xs[..|xs| - 1];
      var x := xs[|xs| - 1];
      PassoGastosDeslocado(v, ini, cs, agora, falhas, ps, es);
      var r0 := PassoGastos(v, ini, cs, agora, falhas, Estado(ps, [], None));
      if r0.erro.None? {
        PassoGastoDeslocado(v, x, cs, agora, falhas, r0.pagamentos, r0.enviados);
        PassoGastoDeslocado(v, x, cs, agora, falhas, r0.pagamentos, es + r0.enviados);
        var t := PassoGasto(v, x, cs, agora, falhas, r0.pagamentos, []);
        assert (es + r0.enviados) + t.enviados == es + (r0.enviados + t.enviados);
      }
    }
  }

  lemma VarrerSnoc(v: Versao, ativos: seq<GastoRecorrente>, a: GastoRecorrente, gs: seq<GastoRecorrente>, cs: seq<Caixinha>,
                   agora: DataHora, falhas: set<int>, inicio: seq<PagamentoRecorrente>)
    requires DataHoraValida(agora) && LembretesValidos(inicio)
    ensures var r0 := Varrer(v, ativos, gs, cs, agora, falhas, inicio);
            var s1 := PassoGastos(v, DoUsuario(gs, a.userId), cs, agora, falhas, r0.estado);
            Varrer(v, ativos + [a], gs, cs, agora, falhas, inicio) ==
            (if r0.estado.erro.Some? || a.userId in r0.visitados then r0
             else Varrido(s1, if s1.erro.Some? then r0.visitados else r0.visitados + [a.userId]))
  {
    assert (ativos + [a])[..|ativos|] == ativos;
  }

  /** A step of the outer loop for a user already processed changes nothing. */
  lemma VarrerSnocVisto(v: Versao, ativos: seq<GastoRecorrente>, a: GastoRecorrente, gs: seq<GastoRecorrente>, cs: seq<Caixinha>,
                        agora: DataHora, falhas: set<int>, inicio: seq<PagamentoRecorrente>)
    requires DataHoraValida(agora) && LembretesValidos(inicio)
    requires a.userId in Varrer(v, ativos, gs, cs, agora, falhas, inicio).visitados
    ensures Varrer(v, ativos + [a], gs, cs, agora, falhas, inicio) == Varrer(v, ativos, gs, cs, agora, falhas, inicio)
  {
    VarrerSnoc(v, ativos, a, gs, cs, agora, falhas, inicio);
  }

  /** A step of the outer loop for a new user, with no error so far, runs that user's bills. */
  lemma VarrerSnocNovo(v: Versao, ativos: seq<GastoRecorrente>, a: GastoRecorrente, gs: seq<GastoRecorrente>, cs: seq<Caixinha>,
                       agora: DataHora, falhas: set<int>, inicio: seq<PagamentoRecorrente>)
    requires DataHoraValida(agora) && LembretesValidos(inicio)
    requires Varrer(v, ativos, gs, cs, agora, falhas, inicio).estado.erro.None?
    requires a.userId !in Varrer(v, ativos, gs, cs, agora, falhas, inicio).visitados
    ensures var r0 := Varrer(v, ativos, gs, cs, agora, falhas, inicio);
            var s1 := PassoGastos(v, DoUsuario(gs, a.userId), cs, agora, falhas, r0.estado);
            Varrer(v, ativos + [a], gs, cs, agora, falhas, inicio) ==
            Varrido(s1, if s1.erro.Some? then r0.visitados else r0.visitados + [a.userId])
  {
    VarrerSnoc(v, ativos, a, gs, cs, agora, falhas, inicio);
  }

  lemma {:induction false} PassoGastosPrefixoErro(v: Versao, xs: seq<GastoRecorrente>, j: nat, cs: seq<Caixinha>, agora: DataHora,
                                                   falhas: set<int>, s: Estado)
    requires DataHoraValida(agora) && LembretesValidos(s.pagamentos) && j <= |xs|
    requires PassoGastos(v, xs[..j], cs, agora, falhas, s).erro.Some?
    ensures PassoGastos(v, xs, cs, agora, falhas, s) == PassoGastos(v, xs[..j], cs, agora, falhas, s)
    decreases |xs|
  {
    if j < |xs| {
      var ini := xs[..|xs| - 1];
      assert ini[..j] == xs[..j];
      PassoGastosPrefixoErro(v, ini, j, cs, agora, falhas, s);
    } else {
      assert xs[..j] == xs;
    }
  }

  lemma {:induction false} VarrerPrefixoErro(v: Versao, ativos: seq<GastoRecorrente>, j: nat, gs: seq<GastoRecorrente>, cs: seq<Caixinha>,
                                             agora: DataHora, falhas: set<int>, inicio: seq<PagamentoRecorrente>)
    requires DataHoraValida(agora) && LembretesValidos(inicio) && j <= |ativos|
    requires Varrer(v, ativos[..j], gs, cs, agora, falhas, inicio).estado.erro.Some?
    ensures Varrer(v, ativos, gs, cs, agora, falhas, inicio) == Varrer(v, ativos[..j], gs, cs, agora, falhas, inicio)
    decreases |ativos|
  {
    if j < |ativos| {
      var ini := ativos[..|ativos| - 1];
      assert ini[..j] == ativos[..j];
      VarrerPrefixoErro(v, ini, j, gs, cs, agora, falhas, inicio);
    } else {
      assert ativos[..j] == ativos;
    }
  }

  // ---------------------------------------------------------------- what the sweep promises

  /** A payment row either untouched or stamped at agora after a send of its bill that went through. */
  predicate Carimbado(a: PagamentoRecorrente, b: PagamentoRecorrente, falhas: set<int>, agora: DataHora, enviados: set<int>) {
    b == a || (b == a.(ultimoLembrete := Some(agora)) && a.gastoId !in falhas && a.gastoId in enviados)
  }

  /**
   * How a sweep may change the payments: old rows are only stamped, new rows are
   * fresh unpaid ones, and a stamp always follows a send that went through.
   */
  predicate SoCarimbaAposEnvio(antes: seq<PagamentoRecorrente>, depois: seq<PagamentoRecorrente>,
                               falhas: set<int>, agora: DataHora, enviados: set<int>) {
    |antes| <= |depois| &&
    (forall k :: 0 <= k < |antes| ==> Carimbado(antes[k], depois[k], falhas, agora, enviados)) &&
    (forall k :: |antes| <= k < |depois| ==>
       !depois[k].pago && depois[k].valor.None? &&
       (depois[k].ultimoLembrete.None? ||
        (depois[k].ultimoLembrete == Some(agora) && depois[k].gastoId !in falhas && depois[k].gastoId in enviados)))
  }

  /** The bill is active and due within the reminder window. */
  predicate NaJanela(v: Versao, gs: seq<GastoRecorrente>, gastoId: int, agora: DataHora)
    requires DataHoraValida(agora)
  {
    exists g :: g in gs && g.id == gastoId && g.ativo && NaJanelaDias(v, g, agora)
  }

  /** Every payment row the sweep created belongs to a bill inside the window. */
  predicate CriadosNaJanela(v: Versao, antes: seq<PagamentoRecorrente>, depois: seq<PagamentoRecorrente>, gs: seq<GastoRecorrente>, agora: DataHora)
    requires DataHoraValida(agora)
  {
    forall k :: |antes| <= k < |depois| ==> NaJanela(v, gs, depois[k].gastoId, agora)
  }

  /**
   * The safety promise the sweep keeps about the payments relative to their state when
   * it started: no failed send is recorded, rows are only stamped after a send, and new
   * rows are only for bills in the window.
   */
  predicate Promessa(v: Versao, inicio: seq<PagamentoRecorrente>, atual: seq<PagamentoRecorrente>, gs: seq<GastoRecorrente>,
                     falhas: set<int>, agora: DataHora, enviados: seq<Envio>)
    requires DataHoraValida(agora)
  {
    (forall e :: e in enviados ==> e.gastoId !in falhas) &&
    SoCarimbaAposEnvio(inicio, atual, falhas, agora, GastosEnviados(enviados)) &&
    CriadosNaJanela(v, inicio, atual, gs, agora)
  }

  /** After handling bill g in the window: its payment row exists, stamped at agora exactly when it was reminded. */
  predicate Tratado(v: Versao, g: GastoRecorrente, inicio: seq<PagamentoRecorrente>, atual: seq<PagamentoRecorrente>,
                    agora: DataHora, enviou: bool)
    requires DataHoraValida(agora)
  {
    NaJanelaDias(v, g, agora) ==>
      IndicePagamento(atual, g.id, g.userId, agora.data.mes, agora.data.ano).Some? &&
      PagamentoVisto(atual, g, agora) ==
        (var p := PagamentoVisto(inicio, g, agora);
         var q := if enviou then p.(ultimoLembrete := Some(agora)) else p;
         q.(id := PagamentoVisto(atual, g, agora).id))
  }

  /**
   * Bill g has been handled: reminded exactly when Elegivel on the starting rows, with
   * the message built from them, and its row stamped accordingly.
   */
  predicate Concluido(v: Versao, g: GastoRecorrente, inicio: seq<PagamentoRecorrente>, atual: seq<PagamentoRecorrente>,
                      enviados: seq<Envio>, agora: DataHora, falhas: set<int>, cs: seq<Caixinha>)
    requires DataHoraValida(agora) && LembretesValidos(inicio)
  {
    (g.id in GastosEnviados(enviados) <==> Elegivel(v, g, inicio, agora, falhas)) &&
    Tratado(v, g, inicio, atual, agora, g.id in GastosEnviados(enviados)) &&
    (forall e :: e in enviados && e.gastoId == g.id ==>
       e.userId == g.userId && MensagemPrevista(v, g, inicio, cs, agora) == Ok(e.mensagem))
  }

  /** Bill g is still to come: nothing sent for it, its rows as they were. */
  predicate Pendente(g: GastoRecorrente, inicio: seq<PagamentoRecorrente>, atual: seq<PagamentoRecorrente>, enviados: seq<Envio>) {
    g.id !in GastosEnviados(enviados) && Intocado(inicio, atual, g.id)
  }

  /** The progress promise: the bills in F are handled, the other active bills are still to come, no bill is reminded twice. */
  predicate Feito(v: Versao, F: set<GastoRecorrente>, inicio: seq<PagamentoRecorrente>, atual: seq<PagamentoRecorrente>,
                  gs: seq<GastoRecorrente>, enviados: seq<Envio>, agora: DataHora, falhas: set<int>, cs: seq<Caixinha>)
    requires DataHoraValida(agora) && LembretesValidos(inicio)
  {
    (forall g :: g in F ==> g in gs && g.ativo && Concluido(v, g, inicio, atual, enviados, agora, falhas, cs)) &&
    (forall g :: g in gs && g.ativo && g !in F ==> Pendente(g, inicio, atual, enviados)) &&
    EnviosDistintos(enviados)
  }

  lemma CarimbosMonotono(antes: seq<PagamentoRecorrente>, depois: seq<PagamentoRecorrente>,
                         falhas: set<int>, agora: DataHora, e1: set<int>, e2: set<int>)
    requires SoCarimbaAposEnvio(antes, depois, falhas, agora, e1) && e1 <= e2
    ensures SoCarimbaAposEnvio(antes, depois, falhas, agora, e2)
  {
  }

  /** The first match is unchanged when a row is appended after it or the matched row is stamped. */
  lemma IndiceAposCriar(ps: seq<PagamentoRecorrente>, p: PagamentoRecorrente, g: GastoRecorrente, mes: int, ano: int)
    requires IndicePagamento(ps, g.id, g.userId, mes, ano).None? && DoMes(p, g.id, g.userId, mes, ano)
    ensures IndicePagamento(ps + [p], g.id, g.userId, mes, ano) == Some(|ps|)
  {
    var r := IndicePagamento(ps + [p], g.id, g.userId, mes, ano);
    assert (ps + [p])[|ps|] == p;
    assert forall i :: 0 <= i < |ps| ==> (ps + [p])[i] == ps[i];
  }

  lemma IndiceAposCarimbo(ps: seq<PagamentoRecorrente>, k: nat, t: DataHora, g: GastoRecorrente, mes: int, ano: int)
    requires IndicePagamento(ps, g.id, g.userId, mes, ano) == Some(k)
    ensures IndicePagamento(ps[k := ps[k].(ultimoLembrete := Some(t))], g.id, g.userId, mes, ano) == Some(k)
  {
    var qs := ps[k := ps[k].(ultimoLembrete := Some(t))];
    assert forall i :: 0 <= i < |ps| ==> (DoMes(qs[i], g.id, g.userId, mes, ano) <==> DoMes(ps[i], g.id, g.userId, mes, ano));
  }

  /** What handling one bill does, judged on the rows it starts from. */
  lemma PassoGastoDesfecho(v: Versao, g: GastoRecorrente, cs: seq<Caixinha>, agora: DataHora, falhas: set<int>,
                           ps: seq<PagamentoRecorrente>, es: seq<Envio>)
    requires DataHoraValida(agora) && LembretesValidos(ps)
    ensures var r := PassoGasto(v, g, cs, agora, falhas, ps, es);
            (r.erro.Some? <==> Aborta(v, g, ps, cs, agora)) &&
            (r.erro.Some? ==> MensagemPrevista(v, g, ps, cs, agora) == Err(r.erro.value) && r.enviados == es) &&
            (r.erro.None? ==>
               if Elegivel(v, g, ps, agora, falhas)
               then MensagemPrevista(v, g, ps, cs, agora).Ok? &&
                    r.enviados == es + [Envio(g.userId, g.id, MensagemPrevista(v, g, ps, cs, agora).value)]
               else r.enviados == es)
  {
  }

  /** What handling one bill does to the rows: only that bill's, and its row is stamped exactly when it is reminded. */
  lemma PassoGastoLinhas(v: Versao, g: GastoRecorrente, cs: seq<Caixinha>, agora: DataHora, falhas: set<int>,
                         ps: seq<PagamentoRecorrente>, es: seq<Envio>)
    requires DataHoraValida(agora) && LembretesValidos(ps)
    ensures var r := PassoGasto(v, g, cs, agora, falhas, ps, es);
            (r.erro.None? ==> Tratado(v, g, ps, r.pagamentos, agora, Elegivel(v, g, ps, agora, falhas))) &&
            (!NaJanelaDias(v, g, agora) ==> r.pagamentos == ps) &&
            (forall gid :: gid != g.id ==> Intocado(ps, r.pagamentos, gid))
  {
    var r := PassoGasto(v, g, cs, agora, falhas, ps, es);
    if NaJanelaDias(v, g, agora) {
      var ps1 := ComPagamento(ps, g, agora);
      ComPagamentoFatos(ps, g, agora);
      if r.pagamentos != ps1 {
        CarimbarFatos(ps1, g, agora);
        assert r.pagamentos == Carimbar(ps1, g, agora);
        forall gid | gid != g.id
          ensures Intocado(ps, r.pagamentos, gid)
        {
          IntocadoTransitivo(ps, ps1, r.pagamentos, gid);
        }
      }
    }
  }

  /** Creating the month's row of a bill inside the window keeps the safety promise. */
  lemma PromessaComPagamento(v: Versao, g: GastoRecorrente, agora: DataHora, falhas: set<int>,
                             inicio: seq<PagamentoRecorrente>, ps: seq<PagamentoRecorrente>, es: seq<Envio>, gs: seq<GastoRecorrente>)
    requires DataHoraValida(agora) && g in gs && g.ativo && NaJanelaDias(v, g, agora)
    requires Promessa(v, inicio, ps, gs, falhas, agora, es)
    ensures Promessa(v, inicio, ComPagamento(ps, g, agora), gs, falhas, agora, es)
  {
    ComPagamentoFatos(ps, g, agora);
    assert NaJanela(v, gs, g.id, agora);
  }

  /** Stamping the row of a bill just reminded keeps the safety promise. */
  lemma PromessaCarimbar(v: Versao, g: GastoRecorrente, agora: DataHora, falhas: set<int>, m: Mensagem,
                         inicio: seq<PagamentoRecorrente>, ps: seq<PagamentoRecorrente>, es: seq<Envio>, gs: seq<GastoRecorrente>)
    requires DataHoraValida(agora) && g.id !in falhas
    requires IndicePagamento(ps, g.id, g.userId, agora.data.mes, agora.data.ano).Some?
    requires Promessa(v, inicio, ps, gs, falhas, agora, es)
    ensures Promessa(v, inicio, Carimbar(ps, g, agora), gs, falhas, agora, es + [Envio(g.userId, g.id, m)])
  {
    var e1 := es + [Envio(g.userId, g.id, m)];
    assert GastosEnviados(e1) == GastosEnviados(es) + {g.id} by {
      assert forall e :: e in e1 <==> e in es || e == e1[|es|];
    }
    CarimbarFatos(ps, g, agora);
    CarimbosMonotono(inicio, ps, falhas, agora, GastosEnviados(es), GastosEnviados(e1));
  }

  /** Handling one active bill keeps the safety promise. */
  lemma PassoGastoPromessa(v: Versao, g: GastoRecorrente, cs: seq<Caixinha>, agora: DataHora, falhas: set<int>,
                           inicio: seq<PagamentoRecorrente>, ps: seq<PagamentoRecorrente>, es: seq<Envio>, gs: seq<GastoRecorrente>)
    requires DataHoraValida(agora) && LembretesValidos(ps) && g in gs && g.ativo
    requires Promessa(v, inicio, ps, gs, falhas, agora, es)
    ensures var r := PassoGasto(v, g, cs, agora, falhas, ps, es);
            Promessa(v, inicio, r.pagamentos, gs, falhas, agora, r.enviados)
  {
    if NaJanelaDias(v, g, agora) {
      var ps1 := ComPagamento(ps, g, agora);
      PromessaComPagamento(v, g, agora, falhas, inicio, ps, es, gs);
      ComPagamentoFatos(ps, g, agora);
      var mp := MensagemPrevista(v, g, ps, cs, agora);
      if mp.Ok? && g.id !in falhas {
        PromessaCarimbar(v, g, agora, falhas, mp.value, inicio, ps1, es, gs);
      }
    }
  }

  /** A handled bill stays handled while another bill is handled. */
  lemma ConcluidoEstavel(v: Versao, h: GastoRecorrente, inicio: seq<PagamentoRecorrente>, antes: seq<PagamentoRecorrente>,
                         depois: seq<PagamentoRecorrente>, e0: seq<Envio>, e1: seq<Envio>,
                         agora: DataHora, falhas: set<int>, cs: seq<Caixinha>)
    requires DataHoraValida(agora) && LembretesValidos(inicio)
    requires Concluido(v, h, inicio, antes, e0, agora, falhas, cs) && Intocado(antes, depois, h.id)
    requires forall e :: e in e1 <==> e in e0 || (e in e1 && e.gastoId != h.id)
    requires forall e :: e in e0 ==> e in e1
    ensures Concluido(v, h, inicio, depois, e1, agora, falhas, cs)
  {
    assert h.id in GastosEnviados(e1) <==> h.id in GastosEnviados(e0);
    IndicePagamentoEstavel(antes, depois, h, agora.data.mes, agora.data.ano);
  }

  /** A bill still to come stays so while another bill is handled. */
  lemma PendenteEstavel(h: GastoRecorrente, gid: int, inicio: seq<PagamentoRecorrente>, antes: seq<PagamentoRecorrente>,
                        depois: seq<PagamentoRecorrente>, e0: seq<Envio>, e1: seq<Envio>)
    requires Pendente(h, inicio, antes, e0) && Intocado(antes, depois, h.id) && h.id != gid
    requires GastosEnviados(e1) <= GastosEnviados(e0) + {gid}
    ensures Pendente(h, inicio, depois, e1)
  {
    IntocadoTransitivo(inicio, antes, depois, h.id);
  }

  /** The bill just handled becomes a handled one. */
  lemma NovoConcluido(v: Versao, g: GastoRecorrente, inicio: seq<PagamentoRecorrente>, antes: seq<PagamentoRecorrente>,
                      depois: seq<PagamentoRecorrente>, e0: seq<Envio>, e1: seq<Envio>,
                      agora: DataHora, falhas: set<int>, cs: seq<Caixinha>)
    requires DataHoraValida(agora) && LembretesValidos(inicio) && LembretesValidos(antes)
    requires Pendente(g, inicio, antes, e0)
    requires if Elegivel(v, g, antes, agora, falhas)
             then MensagemPrevista(v, g, antes, cs, agora).Ok? &&
                  e1 == e0 + [Envio(g.userId, g.id, MensagemPrevista(v, g, antes, cs, agora).value)]
             else e1 == e0
    requires Tratado(v, g, antes, depois, agora, Elegivel(v, g, antes, agora, falhas))
    ensures Concluido(v, g, inicio, depois, e1, agora, falhas, cs)
  {
    DesfechoEstavel(v, g, inicio, antes, cs, agora, falhas);
    if Elegivel(v, g, antes, agora, falhas) {
      assert e1[|e0|] in e1;
      forall e | e in e1 && e.gastoId == g.id
        ensures e == e1[|e0|]
      {
      }
    }
  }

  /** Handling one more bill g, as PassoGasto does, extends the progress promise to it. */
  lemma PassoFeito(v: Versao, F: set<GastoRecorrente>, g: GastoRecorrente, inicio: seq<PagamentoRecorrente>,
                   gs: seq<GastoRecorrente>, s: Estado, agora: DataHora, falhas: set<int>, cs: seq<Caixinha>)
    requires DataHoraValida(agora) && LembretesValidos(inicio) && LembretesValidos(s.pagamentos)
    requires IdsGastoUnicos(gs) && g in gs && g.ativo && g !in F
    requires Feito(v, F, inicio, s.pagamentos, gs, s.enviados, agora, falhas, cs)
    ensures var r := PassoGasto(v, g, cs, agora, falhas, s.pagamentos, s.enviados);
            r.erro.Some? <==> Aborta(v, g, inicio, cs, agora)
    ensures var r := PassoGasto(v, g, cs, agora, falhas, s.pagamentos, s.enviados);
            r.erro.Some? ==> r.enviados == s.enviados
    ensures var r := PassoGasto(v, g, cs, agora, falhas, s.pagamentos, s.enviados);
            r.erro.None? ==> Feito(v, F + {g}, inicio, r.pagamentos, gs, r.enviados, agora, falhas, cs)
  {
    var antes := s.pagamentos;
    var e0 := s.enviados;
    var r := PassoGasto(v, g, cs, agora, falhas, antes, e0);
    var depois := r.pagamentos;
    var e1 := r.enviados;
    PassoGastoDesfecho(v, g, cs, agora, falhas, antes, e0);
    PassoGastoLinhas(v, g, cs, agora, falhas, antes, e0);
    assert Pendente(g, inicio, antes, e0);
    DesfechoEstavel(v, g, inicio, antes, cs, agora, falhas);
    if r.erro.None? {
      assert GastosEnviados(e1) <= GastosEnviados(e0) + {g.id} by {
        assert forall e :: e in e1 ==> e in e0 || e.gastoId == g.id;
      }
      NovoConcluido(v, g, inicio, antes, depois, e0, e1, agora, falhas, cs);
      forall h | h in F
        ensures h in gs && h.ativo && Concluido(v, h, inicio, depois, e1, agora, falhas, cs)
      {
        if h.id == g.id { GastoPorId(gs, h, g); }
        ConcluidoEstavel(v, h, inicio, antes, depois, e0, e1, agora, falhas, cs);
      }
      forall h | h in gs && h.ativo && h !in F + {g}
        ensures Pendente(h, inicio, depois, e1)
      {
        if h.id == g.id { GastoPorId(gs, h, g); }
        PendenteEstavel(h, g.id, inicio, antes, depois, e0, e1);
      }
      assert EnviosDistintos(e1);
    }
  }

  /** The inner loop over active bills keeps the safety promise. */
  lemma {:induction false} PassoGastosPromessa(v: Versao, xs: seq<GastoRecorrente>, inicio: seq<PagamentoRecorrente>,
                                               gs: seq<GastoRecorrente>, s: Estado, agora: DataHora, falhas: set<int>, cs: seq<Caixinha>)
    requires DataHoraValida(agora) && LembretesValidos(s.pagamentos)
    requires Promessa(v, inicio, s.pagamentos, gs, falhas, agora, s.enviados)
    requires forall g :: g in xs ==> g in gs && g.ativo
    ensures var r := PassoGastos(v, xs, cs, agora, falhas, s);
            Promessa(v, inicio, r.pagamentos, gs, falhas, agora, r.enviados)
    decreases |xs|
  {
    if xs != [] {
      var ini := xs[..|xs| - 1];
      var x := xs[|xs| - 1];
      assert xs == ini + [x];
      assert forall g :: g in ini ==> g in xs;
      PassoGastosPromessa(v, ini, inicio, gs, s, agora, falhas, cs);
      PassoGastosSnoc(v, ini, x, cs, agora, falhas, s);
      var r0 := PassoGastos(v, ini, cs, agora, falhas, s);
      if r0.erro.None? {
        PassoGastoPromessa(v, x, cs, agora, falhas, inicio, r0.pagamentos, r0.enviados, gs);
      }
    }
  }

  /** The inner loop over distinct bills still to come keeps the progress promise, and an error names a bill that aborts. */
  lemma {:induction false} PassoGastosFeito(v: Versao, F0: set<GastoRecorrente>, xs: seq<GastoRecorrente>,
                                            inicio: seq<PagamentoRecorrente>, gs: seq<GastoRecorrente>, s: Estado,
                                            agora: DataHora, falhas: set<int>, cs: seq<Caixinha>)
    requires DataHoraValida(agora) && LembretesValidos(inicio) && LembretesValidos(s.pagamentos) && IdsGastoUnicos(gs)
    requires s.erro.None? && Feito(v, F0, inicio, s.pagamentos, gs, s.enviados, agora, falhas, cs)
    requires forall g :: g in xs ==> g in gs && g.ativo && g !in F0
    requires forall i, j :: 0 <= i < j < |xs| ==> xs[i].id != xs[j].id
    ensures var r := PassoGastos(v, xs, cs, agora, falhas, s);
            EnviosDistintos(r.enviados) &&
            (r.erro.None? ==> Feito(v, F0 + (set g | g in xs), inicio, r.pagamentos, gs, r.enviados, agora, falhas, cs)) &&
            (r.erro.Some? ==> exists g :: g in xs && Aborta(v, g, inicio, cs, agora))
    decreases |xs|
  {
    if xs == [] {
      assert F0 + (set g | g in xs) == F0;
    } else {
      var ini := xs[..|xs| - 1];
      var x := xs[|xs| - 1];
      assert xs == ini + [x];
      assert forall g :: g in ini ==> g in xs;
      assert forall i :: 0 <= i < |ini| ==> ini[i] == xs[i];
      PassoGastosFeito(v, F0, ini, inicio, gs, s, agora, falhas, cs);
      PassoGastosSnoc(v, ini, x, cs, agora, falhas, s);
      var r0 := PassoGastos(v, ini, cs, agora, falhas, s);
      var r := PassoGastos(v, xs, cs, agora, falhas, s);
      if r0.erro.Some? {
        assert r == r0;
        var g :| g in ini && Aborta(v, g, inicio, cs, agora);
        assert g in xs;
      } else {
        assert x !in F0 + (set g | g in ini) by {
          assert forall i :: 0 <= i < |ini| ==> ini[i].id != x.id;
        }
        PassoGastosFeitoUltimo(v, F0, ini, x, xs, inicio, gs, r0, r, agora, falhas, cs);
      }
    }
  }

  /** The last step of PassoGastosFeito, for a prefix that ended without an error. */
  lemma PassoGastosFeitoUltimo(v: Versao, F0: set<GastoRecorrente>, ini: seq<GastoRecorrente>, x: GastoRecorrente,
                               xs: seq<GastoRecorrente>, inicio: seq<PagamentoRecorrente>, gs: seq<GastoRecorrente>,
                               r0: Estado, r: Estado, agora: DataHora, falhas: set<int>, cs: seq<Caixinha>)
    requires DataHoraValida(agora) && LembretesValidos(inicio) && LembretesValidos(r0.pagamentos) && IdsGastoUnicos(gs)
    requires xs == ini + [x] && x in gs && x.ativo && x !in F0 + (set g | g in ini)
    requires r0.erro.None? && Feito(v, F0 + (set g | g in ini), inicio, r0.pagamentos, gs, r0.enviados, agora, falhas, cs)
    requires r == PassoGasto(v, x, cs, agora, falhas, r0.pagamentos, r0.enviados)
    ensures EnviosDistintos(r.enviados)
    ensures r.erro.None? ==> Feito(v, F0 + (set g | g in xs), inicio, r.pagamentos, gs, r.enviados, agora, falhas, cs)
    ensures r.erro.Some? ==> exists g :: g in xs && Aborta(v, g, inicio, cs, agora)
  {
    var F := F0 + (set g | g in ini);
    PassoFeito(v, F, x, inicio, gs, r0, agora, falhas, cs);
    if r.erro.None? {
      assert F + {x} == F0 + (set g | g in xs);
    } else {
      assert r.enviados == r0.enviados;
      assert x in xs;
    }
  }

  /** The outer loop processes each user at most once, only users with an active bill, and without an error all of them. */
  lemma {:induction false} VarrerVisitados(v: Versao, ativos: seq<GastoRecorrente>, gs: seq<GastoRecorrente>, cs: seq<Caixinha>,
                                           agora: DataHora, falhas: set<int>, inicio: seq<PagamentoRecorrente>)
    requires DataHoraValida(agora) && LembretesValidos(inicio)
    requires forall g :: g in ativos ==> g in gs && g.ativo
    ensures var r := Varrer(v, ativos, gs, cs, agora, falhas, inicio);
            Distintos(r.visitados) && (forall u :: u in r.visitados ==> u in UsuariosAtivos(gs)) &&
            (r.estado.erro.None? ==> forall k :: 0 <= k < |ativos| ==> ativos[k].userId in r.visitados)
    decreases |ativos|
  {
    if ativos != [] {
      var ini := ativos[..|ativos| - 1];
      var a := ativos[|ativos| - 1];
      assert ativos == ini + [a];
      assert forall g :: g in ini ==> g in ativos;
      assert a in ativos;
      VarrerVisitados(v, ini, gs, cs, agora, falhas, inicio);
      VarrerSnoc(v, ini, a, gs, cs, agora, falhas, inicio);
      var r0 := Varrer(v, ini, gs, cs, agora, falhas, inicio);
      if r0.estado.erro.None? && a.userId !in r0.visitados {
        DistintosSnoc(r0.visitados, a.userId);
      }
    }
  }

  /** The outer loop keeps the safety promise. */
  lemma {:induction false} VarrerPromessa(v: Versao, ativos: seq<GastoRecorrente>, gs: seq<GastoRecorrente>, cs: seq<Caixinha>,
                                          agora: DataHora, falhas: set<int>, inicio: seq<PagamentoRecorrente>)
    requires DataHoraValida(agora) && LembretesValidos(inicio)
    ensures var s := Varrer(v, ativos, gs, cs, agora, falhas, inicio).estado;
            Promessa(v, inicio, s.pagamentos, gs, falhas, agora, s.enviados)
    decreases |ativos|
  {
    if ativos == [] {
      assert SoCarimbaAposEnvio(inicio, inicio, falhas, agora, {});
    } else {
      var ini := ativos[..|ativos| - 1];
      var a := ativos[|ativos| - 1];
      assert ativos == ini + [a];
      VarrerPromessa(v, ini, gs, cs, agora, falhas, inicio);
      VarrerSnoc(v, ini, a, gs, cs, agora, falhas, inicio);
      var r0 := Varrer(v, ini, gs, cs, agora, falhas, inicio);
      if r0.estado.erro.None? && a.userId !in r0.visitados {
        PassoGastosPromessa(v, DoUsuario(gs, a.userId), inicio, gs, r0.estado, agora, falhas, cs);
      }
    }
  }

  /** The outer loop keeps the progress promise over the users it processed. */
  lemma {:induction false} VarrerFeito(v: Versao, ativos: seq<GastoRecorrente>, gs: seq<GastoRecorrente>, cs: seq<Caixinha>,
                                       agora: DataHora, falhas: set<int>, inicio: seq<PagamentoRecorrente>)
    requires DataHoraValida(agora) && LembretesValidos(inicio) && IdsGastoUnicos(gs)
    requires forall g :: g in ativos ==> g in gs && g.ativo
    ensures var r := Varrer(v, ativos, gs, cs, agora, falhas, inicio);
            var s := r.estado;
            EnviosDistintos(s.enviados) &&
            (s.erro.None? ==> Feito(v, DosUsuarios(gs, set u | u in r.visitados), inicio, s.pagamentos, gs, s.enviados, agora, falhas, cs)) &&
            (s.erro.Some? ==> exists g :: g in gs && g.ativo && Aborta(v, g, inicio, cs, agora))
    decreases |ativos|
  {
    if ativos == [] {
      assert DosUsuarios(gs, set u | u in []) == {};
    } else {
      var ini := ativos[..|ativos| - 1];
      var a := ativos[|ativos| - 1];
      assert ativos == ini + [a];
      assert forall g :: g in ini ==> g in ativos;
      VarrerFeito(v, ini, gs, cs, agora, falhas, inicio);
      VarrerSnoc(v, ini, a, gs, cs, agora, falhas, inicio);
      var r0 := Varrer(v, ini, gs, cs, agora, falhas, inicio);
      var r := Varrer(v, ativos, gs, cs, agora, falhas, inicio);
      if r0.estado.erro.Some? || a.userId in r0.visitados {
        assert r == r0;
      } else {
        VarrerFeitoUltimo(v, a.userId, inicio, gs, r0, r, agora, falhas, cs);
      }
    }
  }

  /** The last step of VarrerFeito, for a user not yet processed by a prefix that ended without an error. */
  lemma VarrerFeitoUltimo(v: Versao, u: int, inicio: seq<PagamentoRecorrente>, gs: seq<GastoRecorrente>, r0: Varrido, r: Varrido,
                          agora: DataHora, falhas: set<int>, cs: seq<Caixinha>)
    requires DataHoraValida(agora) && LembretesValidos(inicio) && LembretesValidos(r0.estado.pagamentos) && IdsGastoUnicos(gs)
    requires r0.estado.erro.None? && u !in r0.visitados
    requires Feito(v, DosUsuarios(gs, set w | w in r0.visitados), inicio, r0.estado.pagamentos, gs, r0.estado.enviados, agora, falhas, cs)
    requires var s1 := PassoGastos(v, DoUsuario(gs, u), cs, agora, falhas, r0.estado);
             r == Varrido(s1, if s1.erro.Some? then r0.visitados else r0.visitados + [u])
    ensures EnviosDistintos(r.estado.enviados)
    ensures r.estado.erro.None? ==>
              Feito(v, DosUsuarios(gs, set w | w in r.visitados), inicio, r.estado.pagamentos, gs, r.estado.enviados, agora, falhas, cs)
    ensures r.estado.erro.Some? ==> exists g :: g in gs && g.ativo && Aborta(v, g, inicio, cs, agora)
  {
    var xs := DoUsuario(gs, u);
    var F0 := DosUsuarios(gs, set w | w in r0.visitados);
    DoUsuarioFatos(gs, u);
    PassoGastosFeito(v, F0, xs, inicio, gs, r0.estado, agora, falhas, cs);
    if r.estado.erro.None? {
      assert (set w | w in r0.visitados + [u]) == (set w | w in r0.visitados) + {u};
      assert F0 + (set g | g in xs) == DosUsuarios(gs, set w | w in r0.visitados + [u]);
    } else {
      var g :| g in xs && Aborta(v, g, inicio, cs, agora);
    }
  }

  /** What a whole sweep over the store's bills promises, starting from the rows inicio. */
  lemma Varredura(v: Versao, gs: seq<GastoRecorrente>, cs: seq<Caixinha>, agora: DataHora, falhas: set<int>, inicio: seq<PagamentoRecorrente>)
    requires DataHoraValida(agora) && LembretesValidos(inicio) && IdsGastoUnicos(gs)
    ensures var r := Varrer(v, Ativos(gs), gs, cs, agora, falhas, inicio);
            var s := r.estado;
            Distintos(r.visitados) && (forall u :: u in r.visitados ==> u in UsuariosAtivos(gs)) &&
            (s.erro.None? ==> forall u :: u in UsuariosAtivos(gs) ==> u in r.visitados) &&
            Promessa(v, inicio, s.pagamentos, gs, falhas, agora, s.enviados) && EnviosDistintos(s.enviados) &&
            (s.erro.None? ==> forall g :: g in gs && g.ativo ==> Concluido(v, g, inicio, s.pagamentos, s.enviados, agora, falhas, cs)) &&
            (s.erro.Some? ==> exists g :: g in gs && g.ativo && Aborta(v, g, inicio, cs, agora))
  {
    var ativos := Ativos(gs);
    VarrerVisitados(v, ativos, gs, cs, agora, falhas, inicio);
    VarrerPromessa(v, ativos, gs, cs, agora, falhas, inicio);
    VarrerFeito(v, ativos, gs, cs, agora, falhas, inicio);
    var r := Varrer(v, ativos, gs, cs, agora, falhas, inicio);
    if r.estado.erro.None? {
      forall u | u in UsuariosAtivos(gs)
        ensures u in r.visitados
      {
        var g :| g in gs && g.ativo && g.userId == u;
        assert g in ativos;
        var k :| 0 <= k < |ativos| && ativos[k] == g;
      }
      assert forall g :: g in gs && g.ativo ==> g in DosUsuarios(gs, set u | u in r.visitados);
    }
  }

  // ---------------------------------------------------------------- the sweep, over the store

  /** The body of the inner loop for one bill g of user u, against the store. */
  method ProcessarGasto(store: Recorrentes, v: Versao, g: GastoRecorrente, u: int, caixinhas: seq<Caixinha>, agora: DataHora,
                        falhas: set<int>, enviados0: seq<Envio>)
    returns (enviados: seq<Envio>, erro: Option<ErroLembrete>)
    requires store.Valid() && DataHoraValida(agora) && g.userId == u
    modifies store
    ensures store.Valid() && store.gastos == old(store.gastos)
    ensures Estado(store.pagamentos, enviados, erro) == PassoGasto(v, g, caixinhas, agora, falhas, old(store.pagamentos), enviados0)
    ensures erro.Some? <==> Aborta(v, g, old(store.pagamentos), caixinhas, agora)
    ensures erro.Some? ==> enviados == enviados0
    ensures erro.None? ==>
              if Elegivel(v, g, old(store.pagamentos), agora, falhas)
              then MensagemPrevista(v, g, old(store.pagamentos), caixinhas, agora).Ok? &&
                   enviados == enviados0 + [Envio(u, g.id, MensagemPrevista(v, g, old(store.pagamentos), caixinhas, agora).value)]
              else enviados == enviados0
  {
    PassoGastoDesfecho(v, g, caixinhas, agora, falhas, store.pagamentos, enviados0);
    enviados := enviados0;
    erro := None;
    var dias := Contagem(v, agora, g.diaVencimento);
    if dias.None? {
      erro := Some(VencimentoInvalido(g.id));
      return;
    }
    if !(0 <= dias.value <= 5) {
      return;
    }
    ghost var antes := store.pagamentos;
    var p, k := store.ObterOuCriarPagamentoMes(g.id, u, agora);
    ComPagamentoFatos(antes, g, agora);
    assert store.pagamentos == ComPagamento(antes, g, agora) && p == PagamentoVisto(antes, g, agora);
    if DeveEnviarLembrete(p, dias.value, agora) {
      var msg := MensagemDe(v, g, p, dias.value, agora, caixinhas);
      if msg.Err? {
        erro := Some(msg.error);
        return;
      }
      if g.id !in falhas {
        enviados := enviados + [Envio(u, g.id, msg.value)];
        PagamentoPorIdUnico(store.pagamentos, k);
        CarimbarFatos(store.pagamentos, g, agora);
        store.AtualizarUltimoLembrete(p.id, agora);
      }
    }
  }

  /** The inner loop: every active bill of user u, in table order, until one aborts the sweep. */
  method ProcessarUsuario(store: Recorrentes, v: Versao, u: int, caixinhas: seq<Caixinha>, agora: DataHora, falhas: set<int>)
    returns (enviados: seq<Envio>, erro: Option<ErroLembrete>)
    requires store.Valid() && DataHoraValida(agora)
    modifies store
    ensures store.Valid() && store.gastos == old(store.gastos)
    ensures Estado(store.pagamentos, enviados, erro) ==
            PassoGastos(v, DoUsuario(store.gastos, u), caixinhas, agora, falhas, Estado(old(store.pagamentos), [], None))
    ensures EnviosDistintos(enviados)
    ensures erro.None? ==> forall g :: g in DoUsuario(store.gastos, u) ==>
              (g.id in GastosEnviados(enviados) <==> Elegivel(v, g, old(store.pagamentos), agora, falhas))
    ensures erro.Some? ==> exists g :: g in DoUsuario(store.gastos, u) && Aborta(v, g, old(store.pagamentos), caixinhas, agora)
  {
    ghost var s0 := Estado(store.pagamentos, [], None);
    DoUsuarioFatos(store.gastos, u);
    PassoGastosFeito(v, {}, DoUsuario(store.gastos, u), store.pagamentos, store.gastos, s0, agora, falhas, caixinhas);
    enviados, erro := PercorrerGastos(store, v, u, caixinhas, agora, falhas);
  }

  /** The loop over the user's active bills, in table order, stopping at the first that raises. */
  method PercorrerGastos(store: Recorrentes, v: Versao, u: int, caixinhas: seq<Caixinha>, agora: DataHora, falhas: set<int>)
    returns (enviados: seq<Envio>, erro: Option<ErroLembrete>)
    requires store.Valid() && DataHoraValida(agora)
    modifies store
    ensures store.Valid() && store.gastos == old(store.gastos)
    ensures Estado(store.pagamentos, enviados, erro) ==
            PassoGastos(v, DoUsuario(store.gastos, u), caixinhas, agora, falhas, Estado(old(store.pagamentos), [], None))
  {
    var doUsuario := store.ListarGastosRecorrentes(u);
    ghost var s0 := Estado(store.pagamentos, [], None);
    enviados := [];
    erro := None;
    var j := 0;
    while j < |doUsuario| && erro.None?
      invariant 0 <= j <= |doUsuario|
      invariant store.Valid() && store.gastos == old(store.gastos)
      invariant Estado(store.pagamentos, enviados, erro) == PassoGastos(v, doUsuario[..j], caixinhas, agora, falhas, s0)
    {
      assert doUsuario[j] in doUsuario;
      enviados, erro := VisitarGasto(store, v, u, doUsuario, j, caixinhas, agora, falhas, s0, enviados);
      j := j + 1;
    }
    if erro.Some? {
      PassoGastosPrefixoErro(v, doUsuario, j, caixinhas, agora, falhas, s0);
    } else {
      assert doUsuario[..j] == doUsuario;
    }
  }

  /**
   * verificar_e_enviar_lembretes: for each user with an active bill, once, every active
   * bill of that user due within [0, 5] days gets its payment row fetched or created and,
   * when the rule says so, a reminder; the row is stamped only when the send went through.
   * The sends listed in falhas raise inside the messenger, which the sweep logs and moves
   * past; an invalid due day or a bill without its envelope aborts the rest of the sweep.
   */
  method VerificarEEnviarLembretes(store: Recorrentes, v: Versao, caixinhas: seq<Caixinha>, agora: DataHora, falhas: set<int>)
    returns (enviados: seq<Envio>, visitados: seq<int>, erro: Option<ErroLembrete>)
    requires store.Valid() && DataHoraValida(agora)
    modifies store
    ensures store.Valid() && store.gastos == old(store.gastos)
    ensures Varrido(Estado(store.pagamentos, enviados, erro), visitados) ==
            Varrer(v, Ativos(store.gastos), store.gastos, caixinhas, agora, falhas, old(store.pagamentos))
    ensures Distintos(visitados)
    ensures forall u :: u in visitados ==> u in UsuariosAtivos(store.gastos)
    ensures erro.None? ==> forall u :: u in UsuariosAtivos(store.gastos) ==> u in visitados
    ensures EnviosDistintos(enviados)
    ensures erro.None? ==> forall g :: g in store.gastos && g.ativo ==>
              (g.id in GastosEnviados(enviados) <==> Elegivel(v, g, old(store.pagamentos), agora, falhas))
    ensures erro.None? ==> forall g :: g in store.gastos && g.ativo ==>
              Concluido(v, g, old(store.pagamentos), store.pagamentos, enviados, agora, falhas, caixinhas)
    ensures erro.Some? ==> exists g :: g in store.gastos && g.ativo && Aborta(v, g, old(store.pagamentos), caixinhas, agora)
    ensures Promessa(v, old(store.pagamentos), store.pagamentos, store.gastos, falhas, agora, enviados)
  {
    ghost var inicio := store.pagamentos;
    enviados, visitados, erro := PercorrerAtivos(store, v, caixinhas, agora, falhas);
    Varredura(v, store.gastos, caixinhas, agora, falhas, inicio);
  }

  /** One turn of the inner loop: bill xs[j] of user u, after the bills before it raised nothing. */
  method VisitarGasto(store: Recorrentes, v: Versao, u: int, xs: seq<GastoRecorrente>, j: nat, caixinhas: seq<Caixinha>,
                      agora: DataHora, falhas: set<int>, ghost s0: Estado, enviados0: seq<Envio>)
    returns (enviados: seq<Envio>, erro: Option<ErroLembrete>)
    requires store.Valid() && DataHoraValida(agora) && LembretesValidos(s0.pagamentos) && j < |xs| && xs[j].userId == u
    requires Estado(store.pagamentos, enviados0, None) == PassoGastos(v, xs[..j], caixinhas, agora, falhas, s0)
    modifies store
    ensures store.Valid() && store.gastos == old(store.gastos)
    ensures Estado(store.pagamentos, enviados, erro) == PassoGastos(v, xs[..j + 1], caixinhas, agora, falhas, s0)
  {
    assert xs[..j + 1] == xs[..j] + [xs[j]];
    PassoGastosSnoc(v, xs[..j], xs[j], caixinhas, agora, falhas, s0);
    enviados, erro := ProcessarGasto(store, v, xs[j], u, caixinhas, agora, falhas, enviados0);
  }

  /** One user's bills handled after the reminders already sent, which the new ones follow. */
  method AcrescentarUsuario(store: Recorrentes, v: Versao, u: int, caixinhas: seq<Caixinha>, agora: DataHora,
                            falhas: set<int>, enviados0: seq<Envio>)
    returns (enviados: seq<Envio>, erro: Option<ErroLembrete>)
    requires store.Valid() && DataHoraValida(agora)
    modifies store
    ensures store.Valid() && store.gastos == old(store.gastos)
    ensures Estado(store.pagamentos, enviados, erro) ==
            PassoGastos(v, DoUsuario(store.gastos, u), caixinhas, agora, falhas, Estado(old(store.pagamentos), enviados0, None))
  {
    ghost var antes := store.pagamentos;
    var novos;
    novos, erro := ProcessarUsuario(store, v, u, caixinhas, agora, falhas);
    PassoGastosDeslocado(v, DoUsuario(store.gastos, u), caixinhas, agora, falhas, antes, enviados0);
    enviados := enviados0 + novos;
  }

  /** The outer loop of verificar_e_enviar_lembretes over the active bills, skipping users already processed. */
  method PercorrerAtivos(store: Recorrentes, v: Versao, caixinhas: seq<Caixinha>, agora: DataHora, falhas: set<int>)
    returns (enviados: seq<Envio>, visitados: seq<int>, erro: Option<ErroLembrete>)
    requires store.Valid() && DataHoraValida(agora)
    modifies store
    ensures store.Valid() && store.gastos == old(store.gastos)
    ensures Varrido(Estado(store.pagamentos, enviados, erro), visitados) ==
            Varrer(v, Ativos(store.gastos), store.gastos, caixinhas, agora, falhas, old(store.pagamentos))
  {
    ghost var inicio := store.pagamentos;
    var ativos := Ativos(store.gastos);
    var processados: set<int> := {};
    enviados := [];
    visitados := [];
    erro := None;
    var i := 0;
    while i < |ativos|
      invariant 0 <= i <= |ativos|
      invariant store.Valid() && store.gastos == old(store.gastos)
      invariant forall u :: u in visitados <==> u in processados
      invariant erro.None?
      invariant Varrido(Estado(store.pagamentos, enviados, None), visitados) ==
                Varrer(v, ativos[..i], store.gastos, caixinhas, agora, falhas, inicio)
    {
      enviados, visitados, processados, erro := VisitarAtivo(store, v, ativos, i, caixinhas, agora, falhas, inicio,
                                                             enviados, visitados, processados);
      if erro.Some? {
        VarrerPrefixoErro(v, ativos, i + 1, store.gastos, caixinhas, agora, falhas, inicio);
        return;
      }
      i := i + 1;
    }
    assert ativos[..i] == ativos;
  }

  /** One turn of the outer loop: bill ativos[i], whose user is processed unless already seen. */
  method VisitarAtivo(store: Recorrentes, v: Versao, ativos: seq<GastoRecorrente>, i: nat, caixinhas: seq<Caixinha>,
                      agora: DataHora, falhas: set<int>, ghost inicio: seq<PagamentoRecorrente>,
                      enviados0: seq<Envio>, visitados0: seq<int>, processados0: set<int>)
    returns (enviados: seq<Envio>, visitados: seq<int>, processados: set<int>, erro: Option<ErroLembrete>)
    requires store.Valid() && DataHoraValida(agora) && LembretesValidos(inicio) && i < |ativos|
    requires forall u :: u in visitados0 <==> u in processados0
    requires Varrido(Estado(store.pagamentos, enviados0, None), visitados0) ==
             Varrer(v, ativos[..i], store.gastos, caixinhas, agora, falhas, inicio)
    modifies store
    ensures store.Valid() && store.gastos == old(store.gastos)
    ensures forall u :: u in visitados <==> u in processados
    ensures Varrido(Estado(store.pagamentos, enviados, erro), visitados) ==
            Varrer(v, ativos[..i + 1], store.gastos, caixinhas, agora, falhas, inicio)
  {
    var u := ativos[i].userId;
    assert ativos[..i + 1] == ativos[..i] + [ativos[i]];
    enviados, visitados, processados, erro := enviados0, visitados0, processados0, None;
    if u !in processados {
      VarrerSnocNovo(v, ativos[..i], ativos[i], store.gastos, caixinhas, agora, falhas, inicio);
      enviados, erro := AcrescentarUsuario(store, v, u, caixinhas, agora, falhas, enviados);
      if erro.None? {
        visitados := visitados + [u];
        processados := processados + {u};
      }
    } else {
      VarrerSnocVisto(v, ativos[..i], ativos[i], store.gastos, caixinhas, agora, falhas, inicio);
    }
  }
}
