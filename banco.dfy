/**
 * The envelope ledger of database.py: four tables held in memory by a
 * Database object whose methods change them the way the ORM session does.
 */
module Banco {
  import opened Comum
  import opened Texto
  import opened Calendario

  // ---------------------------------------------------------------- rows

  /** One spending envelope ("caixinha") with its monthly limit and what was spent in the cycle. */
  datatype Caixinha = Caixinha(id: int, userId: int, nome: string, limite: real, gastoAtual: real, criadoEm: DataHora)

  datatype Transacao = Transacao(
    id: int, userId: int, caixinhaId: int, valor: real, estabelecimento: string,
    categoria: Option<string>, dataTransacao: DataHora, criadoEm: DataHora)

  /** The payee memory: a payee name, stored upper-cased, and the envelope it was last filed under. */
  datatype EstabelecimentoConhecido = EstabelecimentoConhecido(id: int, userId: int, nomeEstabelecimento: string, caixinhaId: int)

  datatype ConfiguracaoUsuario = ConfiguracaoUsuario(id: int, userId: int, diaFechamento: Option<int>)

  /** Caixinha.saldo_restante: what is left of the limit. */
  function SaldoRestante(c: Caixinha): (r: real)
    ensures r + c.gastoAtual == c.limite
    ensures r <= 0.0 <==> c.gastoAtual >= c.limite
  {
    c.limite - c.gastoAtual
  }

  /** Caixinha.percentual_usado: spend as a percentage of the limit, 0 for a limit that is not positive. */
  function PercentualUsado(c: Caixinha): (p: real)
    ensures c.limite <= 0.0 ==> p == 0.0
    ensures c.limite > 0.0 ==> p * c.limite == c.gastoAtual * 100.0
  {
    if c.limite > 0.0 then c.gastoAtual / c.limite * 100.0 else 0.0
  }

  /** With a positive limit, the envelope has reached 100% exactly when nothing is left of it. */
  lemma PercentualCheioSemSaldo(c: Caixinha)
    requires c.limite > 0.0
    ensures PercentualUsado(c) >= 100.0 <==> SaldoRestante(c) <= 0.0
  {
    var p := PercentualUsado(c);
    if p >= 100.0 {
      assert p * c.limite >= 100.0 * c.limite;
    } else {
      assert p * c.limite < 100.0 * c.limite;
    }
  }

  /** Nothing caps spending: an envelope can be taken below zero. */
  lemma SaldoPodeFicarNegativo()
    ensures var c := Caixinha(1, 7, "Mercado", 100.0, 90.0, DataHora(Data(2024, 5, 1), 0));
            var d := Debitar([c], 1, 50.0)[0];
            SaldoRestante(d) == -40.0 && PercentualUsado(d) == 140.0
  {
  }

  // ---------------------------------------------------------------- queries

  predicate IdsUnicos(cs: seq<Caixinha>) {
    forall i, j :: 0 <= i < j < |cs| ==> cs[i].id != cs[j].id
  }

  /** The unique constraint on configuracoes_usuario.user_id. */
  predicate UmaConfigPorUsuario(cfgs: seq<ConfiguracaoUsuario>) {
    forall i, j :: 0 <= i < j < |cfgs| ==> cfgs[i].userId != cfgs[j].userId
  }

  function ProximoIdCaixinha(cs: seq<Caixinha>): int {
    MaiorId(cs, (c: Caixinha) => c.id) + 1
  }

  function ProximoIdTransacao(ts: seq<Transacao>): int {
    MaiorId(ts, (t: Transacao) => t.id) + 1
  }

  function ProximoIdEstabelecimento(es: seq<EstabelecimentoConhecido>): int {
    MaiorId(es, (e: EstabelecimentoConhecido) => e.id) + 1
  }

  function ProximoIdConfig(cfgs: seq<ConfiguracaoUsuario>): int {
    MaiorId(cfgs, (c: ConfiguracaoUsuario) => c.id) + 1
  }

  /** listar_caixinhas: the user's envelopes in table order. */
  function CaixinhasDe(cs: seq<Caixinha>, u: int): seq<Caixinha> {
    Filtrar(cs, (c: Caixinha) => c.userId == u)
  }

  function TotalGasto(cs: seq<Caixinha>): real {
    SomaDe(cs, (c: Caixinha) => c.gastoAtual)
  }

  function TotalLimite(cs: seq<Caixinha>): real {
    SomaDe(cs, (c: Caixinha) => c.limite)
  }

  function IdDaCaixinha(c: Caixinha): int {
    c.id
  }

  /** Where query(Caixinha).get(id) finds its row. */
  function IndiceCaixinha(cs: seq<Caixinha>, id: int): (k: Option<nat>)
    ensures k.Some? ==> k.value < |cs| && cs[k.value].id == id
    ensures k.None? <==> forall i :: 0 <= i < |cs| ==> cs[i].id != id
  {
    IndicePorId(cs, IdDaCaixinha, id)
  }

  /** The effect of adicionar_transacao on one envelope row. */
  function Debitada(c: Caixinha, id: int, valor: real): Caixinha {
    if c.id == id then c.(gastoAtual := c.gastoAtual + valor) else c
  }

  function Debitar(cs: seq<Caixinha>, id: int, valor: real): seq<Caixinha> {
    seq(|cs|, i requires 0 <= i < |cs| => Debitada(cs[i], id, valor))
  }

  /** The effect of resetar_gastos_mensais on one envelope row. */
  function Zerada(c: Caixinha, u: int): Caixinha {
    if c.userId == u then c.(gastoAtual := 0.0) else c
  }

  function ZerarGastos(cs: seq<Caixinha>, u: int): seq<Caixinha> {
    seq(|cs|, i requires 0 <= i < |cs| => Zerada(cs[i], u))
  }

  /** The first envelope of user u named exactly nome. */
  function CaixinhaChamada(cs: seq<Caixinha>, u: int, nome: string): (r: Option<Caixinha>)
    ensures r.Some? ==> r.value in cs && r.value.userId == u && r.value.nome == nome
    ensures r.None? <==> forall c :: c in cs ==> !(c.userId == u && c.nome == nome)
  {
    var f := Filtrar(cs, (c: Caixinha) => c.userId == u && c.nome == nome);
    if f == [] then None
    else
      assert f[0] in f;
      Some(f[0])
  }

  /** The first payee-memory row of user u whose stored name is chave. */
  function PrimeiroEstabelecimento(es: seq<EstabelecimentoConhecido>, u: int, chave: string): (r: Option<EstabelecimentoConhecido>)
    ensures r.Some? ==> r.value in es && r.value.userId == u && r.value.nomeEstabelecimento == chave
    ensures r.None? <==> forall e :: e in es ==> !(e.userId == u && e.nomeEstabelecimento == chave)
  {
    if es == [] then None
    else if es[0].userId == u && es[0].nomeEstabelecimento == chave then Some(es[0])
    else PrimeiroEstabelecimento(es[1..], u, chave)
  }

  /** Where query(ConfiguracaoUsuario).filter_by(user_id=u).first() finds its row. */
  function IndiceConfig(cfgs: seq<ConfiguracaoUsuario>, u: int): (k: Option<nat>)
    ensures k.Some? ==> k.value < |cfgs| && cfgs[k.value].userId == u
    ensures k.Some? ==> forall i :: 0 <= i < k.value ==> cfgs[i].userId != u
    ensures k.None? <==> forall i :: 0 <= i < |cfgs| ==> cfgs[i].userId != u
  {
    if cfgs == [] then None
    else if cfgs[0].userId == u then Some(0)
    else match IndiceConfig(cfgs[1..], u)
      case None => None
      case Some(k) => Some(k + 1)
  }

  /** obter_dia_fechamento: the closing day of the user's first settings row, None without one. */
  function DiaFechamentoEm(cfgs: seq<ConfiguracaoUsuario>, u: int): (r: Option<int>)
    ensures (forall i :: 0 <= i < |cfgs| ==> cfgs[i].userId != u) ==> r.None?
    ensures (exists i :: 0 <= i < |cfgs| && cfgs[i].userId == u) ==>
              exists k :: 0 <= k < |cfgs| && cfgs[k].userId == u && r == cfgs[k].diaFechamento &&
                          forall i :: 0 <= i < k ==> cfgs[i].userId != u
  {
    match IndiceConfig(cfgs, u)
    case None => None
    case Some(k) => cfgs[k].diaFechamento
  }

  /** The rows resetar_tudo_usuario leaves in each table. */
  function CaixinhasExceto(cs: seq<Caixinha>, u: int): seq<Caixinha> {
    Filtrar(cs, (c: Caixinha) => c.userId != u)
  }

  function TransacoesExceto(ts: seq<Transacao>, u: int): seq<Transacao> {
    Filtrar(ts, (t: Transacao) => t.userId != u)
  }

  function EstabelecimentosExceto(es: seq<EstabelecimentoConhecido>, u: int): seq<EstabelecimentoConhecido> {
    Filtrar(es, (e: EstabelecimentoConhecido) => e.userId != u)
  }

  function ConfigsExceto(cfgs: seq<ConfiguracaoUsuario>, u: int): seq<ConfiguracaoUsuario> {
    Filtrar(cfgs, (c: ConfiguracaoUsuario) => c.userId != u)
  }

  // ---------------------------------------------------------------- report and history

  datatype Relatorio = Relatorio(
    caixinhas: seq<Caixinha>, transacoesMes: seq<Transacao>,
    totalGasto: real, totalLimite: real, totalDisponivel: real, numTransacoes: int)

  /** The user's transactions dated in the month and year of hoje. */
  function TransacoesDoMes(ts: seq<Transacao>, u: int, hoje: Data): seq<Transacao> {
    Filtrar(ts, (t: Transacao) => t.userId == u && t.dataTransacao.data.ano == hoje.ano && t.dataTransacao.data.mes == hoje.mes)
  }

  /** A month of the history, the dict key "%m/%Y" of the source. */
  datatype MesAno = MesAno(mes: int, ano: int)

  /** One (month, category) bucket of get_historico_consolidado. */
  datatype Grupo = Grupo(total: real, count: nat, transacoes: seq<Transacao>)

  datatype Historico = Historico(meses: seq<MesAno>, grupos: map<MesAno, map<string, Grupo>>)

  function MesAnoDe(t: Transacao): MesAno {
    MesAno(t.dataTransacao.data.mes, t.dataTransacao.data.ano)
  }

  /** `t.categoria or "Sem categoria"`: a missing or empty category goes to its own bucket. */
  function CategoriaDe(t: Transacao): (c: string)
    ensures c != []
    ensures t.categoria.Some? && t.categoria.value != [] ==> c == t.categoria.value
    ensures t.categoria.None? || t.categoria.value == [] ==> c == "Sem categoria"
  {
    if t.categoria.Some? && t.categoria.value != [] then t.categoria.value else "Sem categoria"
  }

  /** The user's transactions dated on or after inicio. */
  function TransacoesDesde(ts: seq<Transacao>, u: int, inicio: Data): seq<Transacao> {
    Filtrar(ts, (t: Transacao) => t.userId == u && NaoAntes(t.dataTransacao.data, inicio))
  }

  /** The transactions of the (m, c) bucket. */
  function DoGrupo(ts: seq<Transacao>, m: MesAno, c: string): seq<Transacao> {
    Filtrar(ts, (t: Transacao) => MesAnoDe(t) == m && CategoriaDe(t) == c)
  }

  function SomaValores(ts: seq<Transacao>): real {
    SomaDe(ts, (t: Transacao) => t.valor)
  }

  function Resumo(ts: seq<Transacao>): Grupo {
    Grupo(SomaValores(ts), |ts|, ts)
  }

  /** a is a later month than b, the order of the key (year, month) under reverse=True. */
  predicate MaisRecente(a: MesAno, b: MesAno) {
    a.ano > b.ano || (a.ano == b.ano && a.mes > b.mes)
  }

  predicate OrdenadoDesc(ms: seq<MesAno>) {
    forall i, j :: 0 <= i < j < |ms| ==> MaisRecente(ms[i], ms[j])
  }

  predicate Distintos<T(==)>(xs: seq<T>) {
    forall i, j :: 0 <= i < j < |xs| ==> xs[i] != xs[j]
  }

  function InserirMes(ms: seq<MesAno>, m: MesAno): (r: seq<MesAno>)
    requires OrdenadoDesc(ms) && m !in ms
    ensures OrdenadoDesc(r) && |r| == |ms| + 1
    ensures forall x :: x in r <==> x in ms || x == m
  {
    if ms == [] then [m]
    else if MaisRecente(m, ms[0]) then [m] + ms
    else
      var r := InserirMes(ms[1..], m);
      assert forall j :: 1 <= j < |ms| ==> MaisRecente(ms[0], ms[j]);
      assert forall x :: x in ms[1..] ==> MaisRecente(ms[0], x);
      [ms[0]] + r
  }

  /** sorted(keys, key=(year, month), reverse=True) on distinct months. */
  function OrdenarMeses(xs: seq<MesAno>): (r: seq<MesAno>)
    requires Distintos(xs)
    ensures OrdenadoDesc(r) && |r| == |xs|
    ensures forall x :: x in r <==> x in xs
  {
    if xs == [] then []
    else
      var ini := xs[..|xs| - 1];
      assert forall i, j :: 0 <= i < j < |ini| ==> ini[i] == xs[i] && ini[j] == xs[j];
      InserirMes(OrdenarMeses(ini), xs[|xs| - 1])
  }

  // ---------------------------------------------------------------- the database

  class Database {
    var caixinhas: seq<Caixinha>
    var transacoes: seq<Transacao>
    var estabelecimentos: seq<EstabelecimentoConhecido>
    var configuracoes: seq<ConfiguracaoUsuario>

    /** The primary key of caixinhas and the unique user_id of configuracoes_usuario. */
    ghost predicate Valid()
      reads this
    {
      IdsUnicos(caixinhas) && UmaConfigPorUsuario(configuracoes)
    }

    constructor()
      ensures Valid()
      ensures caixinhas == [] && transacoes == [] && estabelecimentos == [] && configuracoes == []
    {
      caixinhas := [];
      transacoes := [];
      estabelecimentos := [];
      configuracoes := [];
    }

    method CriarCaixinha(userId: int, nome: string, limite: real, agora: DataHora) returns (c: Caixinha)
      requires Valid()
      modifies this
      ensures Valid()
      ensures c == Caixinha(ProximoIdCaixinha(old(caixinhas)), userId, nome, limite, 0.0, agora)
      ensures caixinhas == old(caixinhas) + [c]
      ensures transacoes == old(transacoes) && estabelecimentos == old(estabelecimentos)
      ensures configuracoes == old(configuracoes)
    {
      c := Caixinha(ProximoIdCaixinha(caixinhas), userId, nome, limite, 0.0, agora);
      caixinhas := caixinhas + [c];
    }

    function ListarCaixinhas(u: int): (r: seq<Caixinha>)
      reads this
      ensures forall c :: c in r <==> c in caixinhas && c.userId == u
    {
      CaixinhasDe(caixinhas, u)
    }

    /** buscar_caixinha_por_categoria: the user's first envelope with exactly that name. */
    function BuscarCaixinhaPorCategoria(u: int, nome: string): (r: Option<Caixinha>)
      reads this
      ensures r.Some? ==> r.value in caixinhas && r.value.userId == u && r.value.nome == nome
      ensures r.None? <==> forall c :: c in caixinhas ==> !(c.userId == u && c.nome == nome)
    {
      CaixinhaChamada(caixinhas, u, nome)
    }

    /**
     * adicionar_transacao: appends the row and raises the envelope's spend by valor,
     * whatever is left of its limit; a missing envelope leaves every balance alone.
     */
    method AdicionarTransacao(userId: int, caixinhaId: int, valor: real, estabelecimento: string,
                              categoria: Option<string>, dataTransacao: DataHora, agora: DataHora)
      returns (t: Transacao)
      requires Valid()
      modifies this
      ensures Valid()
      ensures t == Transacao(ProximoIdTransacao(old(transacoes)), userId, caixinhaId, valor,
                             estabelecimento, categoria, dataTransacao, agora)
      ensures transacoes == old(transacoes) + [t]
      ensures caixinhas == Debitar(old(caixinhas), caixinhaId, valor)
      ensures estabelecimentos == old(estabelecimentos) && configuracoes == old(configuracoes)
    {
      t := Transacao(ProximoIdTransacao(transacoes), userId, caixinhaId, valor,
                     estabelecimento, categoria, dataTransacao, agora);
      var k := IndiceCaixinha(caixinhas, caixinhaId);
      if k.Some? {
        var c := caixinhas[k.value];
        caixinhas := caixinhas[k.value := c.(gastoAtual := c.gastoAtual + valor)];
      }
      transacoes := transacoes + [t];
    }

    function BuscarEstabelecimentoConhecido(u: int, nome: string): (r: Option<EstabelecimentoConhecido>)
      reads this
      ensures r.Some? ==> r.value in estabelecimentos && r.value.userId == u
      ensures r.Some? ==> r.value.nomeEstabelecimento == Maiusculas(nome)
    {
      PrimeiroEstabelecimento(estabelecimentos, u, Maiusculas(nome))
    }

    /** salvar_estabelecimento_conhecido: always appends, even when the payee is already known. */
    method SalvarEstabelecimentoConhecido(u: int, nome: string, caixinhaId: int) returns (e: EstabelecimentoConhecido)
      requires Valid()
      modifies this
      ensures Valid()
      ensures e == EstabelecimentoConhecido(ProximoIdEstabelecimento(old(estabelecimentos)), u, Maiusculas(nome), caixinhaId)
      ensures estabelecimentos == old(estabelecimentos) + [e]
      ensures caixinhas == old(caixinhas) && transacoes == old(transacoes)
      ensures configuracoes == old(configuracoes)
    {
      e := EstabelecimentoConhecido(ProximoIdEstabelecimento(estabelecimentos), u, Maiusculas(nome), caixinhaId);
      estabelecimentos := estabelecimentos + [e];
    }

    /** definir_dia_fechamento: updates the user's one configuration row, or inserts it. */
    method DefinirDiaFechamento(u: int, dia: int)
      requires Valid()
      modifies this
      ensures Valid()
      ensures ObterDiaFechamento(u) == Some(dia)
      ensures forall v :: v != u ==> DiaFechamentoEm(configuracoes, v) == DiaFechamentoEm(old(configuracoes), v)
      ensures |configuracoes| == |old(configuracoes)| + (if IndiceConfig(old(configuracoes), u).None? then 1 else 0)
      ensures caixinhas == old(caixinhas) && transacoes == old(transacoes)
      ensures estabelecimentos == old(estabelecimentos)
    {
      var k := IndiceConfig(configuracoes, u);
      if k.Some? {
        var cfg := configuracoes[k.value];
        configuracoes := configuracoes[k.value := cfg.(diaFechamento := Some(dia))];
        IndiceConfigAposAtualizar(old(configuracoes), k.value, configuracoes[k.value]);
        forall v | v != u
          ensures DiaFechamentoEm(configuracoes, v) == DiaFechamentoEm(old(configuracoes), v)
        {
          IndiceConfigIgnoraOutro(old(configuracoes), k.value, configuracoes[k.value], v);
        }
      } else {
        var nova := ConfiguracaoUsuario(ProximoIdConfig(configuracoes), u, Some(dia));
        IndiceConfigAposInserir(configuracoes, nova);
        configuracoes := configuracoes + [nova];
      }
    }

    function ObterDiaFechamento(u: int): Option<int>
      reads this
    {
      DiaFechamentoEm(configuracoes, u)
    }

    /** resetar_gastos_mensais: zeroes the spend of each of the user's envelopes and counts them. */
    method ResetarGastosMensais(u: int) returns (n: nat)
      requires Valid()
      modifies this
      ensures Valid()
      ensures caixinhas == ZerarGastos(old(caixinhas), u)
      ensures n == |CaixinhasDe(old(caixinhas), u)|
      ensures transacoes == old(transacoes) && estabelecimentos == old(estabelecimentos)
      ensures configuracoes == old(configuracoes)
    {
      var cs := caixinhas;
      n := 0;
      var i := 0;
      while i < |cs|
        invariant 0 <= i <= |cs| == |caixinhas|
        invariant forall k :: 0 <= k < i ==> cs[k] == Zerada(caixinhas[k], u)
        invariant forall k :: i <= k < |cs| ==> cs[k] == caixinhas[k]
        invariant n == |CaixinhasDe(caixinhas[..i], u)|
        invariant unchanged(this)
      {
        ContagemPasso(caixinhas, i, u);
        if cs[i].userId == u {
          cs := cs[i := cs[i].(gastoAtual := 0.0)];
          n := n + 1;
        }
        i := i + 1;
      }
      assert caixinhas[..i] == caixinhas;
      assert cs == ZerarGastos(caixinhas, u);
      ZerarPreservaIds(caixinhas, u);
      caixinhas := cs;
    }

    /** resetar_tudo_usuario: deletes every row of the user from the four tables. */
    method ResetarTudoUsuario(u: int)
      requires Valid()
      modifies this
      ensures Valid()
      ensures transacoes == TransacoesExceto(old(transacoes), u)
      ensures estabelecimentos == EstabelecimentosExceto(old(estabelecimentos), u)
      ensures caixinhas == CaixinhasExceto(old(caixinhas), u)
      ensures configuracoes == ConfigsExceto(old(configuracoes), u)
    {
      transacoes := TransacoesExceto(transacoes, u);
      estabelecimentos := EstabelecimentosExceto(estabelecimentos, u);
      SubsequenciaPreservaIds(caixinhas, u);
      caixinhas := CaixinhasExceto(caixinhas, u);
      SubsequenciaPreservaConfig(configuracoes, u);
      configuracoes := ConfigsExceto(configuracoes, u);
    }

    /** get_relatorio_mensal, with date.today() passed in as hoje. */
    function GetRelatorioMensal(u: int, hoje: Data): (r: Relatorio)
      reads this
      ensures r.caixinhas == CaixinhasDe(caixinhas, u)
      ensures r.totalGasto == TotalGasto(r.caixinhas) && r.totalLimite == TotalLimite(r.caixinhas)
      ensures r.totalDisponivel == r.totalLimite - r.totalGasto
      ensures r.numTransacoes == |r.transacoesMes|
      ensures forall t :: t in r.transacoesMes <==>
                t in transacoes && t.userId == u && t.dataTransacao.data.ano == hoje.ano && t.dataTransacao.data.mes == hoje.mes
    {
      var cs := CaixinhasDe(caixinhas, u);
      var tm := TransacoesDoMes(transacoes, u, hoje);
      var tg := TotalGasto(cs);
      var tl := TotalLimite(cs);
      Relatorio(cs, tm, tg, tl, tl - tg, |tm|)
    }

    /**
     * get_historico_consolidado: the user's transactions since inicio, grouped by
     * month and category, months most recent first; None when there are none.
     * inicio is the caller's hoje - timedelta(days=30 * num_meses).
     */
    method GetHistoricoConsolidado(u: int, inicio: Data) returns (r: Option<Historico>)
      ensures var ts := TransacoesDesde(transacoes, u, inicio);
              (r.None? <==> ts == []) &&
              (r.Some? ==>
                 OrdenadoDesc(r.value.meses) &&
                 (forall m :: m in r.value.meses <==> m in r.value.grupos) &&
                 Cobre(r.value.grupos, ts) && Resume(r.value.grupos, ts))
    {
      var ts := TransacoesDesde(transacoes, u, inicio);
      if ts == [] {
        return None;
      }
      var grupos: map<MesAno, map<string, Grupo>> := map[];
      var ordem: seq<MesAno> := [];
      var i := 0;
      while i < |ts|
        invariant 0 <= i <= |ts|
        invariant Distintos(ordem)
        invariant forall m :: m in ordem <==> m in grupos
        invariant grupos == Agrupar(ts[..i])
      {
        var t := ts[i];
        var m := MesAnoDe(t);
        AgruparSnoc(ts, i);
        AcrescentarChaves(grupos, t);
        if m !in grupos {
          DistintosSnoc(ordem, m);
          ordem := ordem + [m];
        }
        grupos := Acrescentar(grupos, t);
        i := i + 1;
      }
      assert ts[..i] == ts;
      HistoricoAgrupado(ts, ordem);
      r := Some(Historico(OrdenarMeses(ordem), grupos));
    }
  }

  // ---------------------------------------------------------------- ledger properties

  /** Some envelope with that id belongs to user u. */
  predicate Pertence(cs: seq<Caixinha>, id: int, u: int) {
    exists i :: 0 <= i < |cs| && cs[i].id == id && cs[i].userId == u
  }

  /**
   * A transaction raises the owner's total spend by exactly its value and leaves
   * the owner's total limit alone; an unknown envelope id changes neither.
   */
  lemma {:induction false} TotaisAposDebitar(cs: seq<Caixinha>, id: int, valor: real, u: int)
    requires IdsUnicos(cs)
    ensures TotalGasto(CaixinhasDe(Debitar(cs, id, valor), u)) ==
            TotalGasto(CaixinhasDe(cs, u)) + (if Pertence(cs, id, u) then valor else 0.0)
    ensures TotalLimite(CaixinhasDe(Debitar(cs, id, valor), u)) == TotalLimite(CaixinhasDe(cs, u))
    decreases |cs|
  {
    if cs == [] {
      assert Debitar(cs, id, valor) == [];
      assert CaixinhasDe([], u) == [];
    } else {
      var ini := cs[..|cs| - 1];
      var x := cs[|cs| - 1];
      assert cs == ini + [x];
      PertenceSnoc(ini, x, id, u);
      TotaisAposDebitar(ini, id, valor, u);
      PassoDebitar(ini, x, id, valor, u);
    }
  }

  lemma PassoDebitar(ini: seq<Caixinha>, x: Caixinha, id: int, valor: real, u: int)
    requires x.id == id ==> !Pertence(ini, id, u)
    requires TotalGasto(CaixinhasDe(Debitar(ini, id, valor), u)) ==
            TotalGasto(CaixinhasDe(ini, u)) + (if Pertence(ini, id, u) then valor else 0.0)
    requires TotalLimite(CaixinhasDe(Debitar(ini, id, valor), u)) == TotalLimite(CaixinhasDe(ini, u))
    requires Pertence(ini + [x], id, u) <==> Pertence(ini, id, u) || (x.id == id && x.userId == u)
    ensures TotalGasto(CaixinhasDe(Debitar(ini + [x], id, valor), u)) ==
            TotalGasto(CaixinhasDe(ini + [x], u)) + (if Pertence(ini + [x], id, u) then valor else 0.0)
    ensures TotalLimite(CaixinhasDe(Debitar(ini + [x], id, valor), u)) == TotalLimite(CaixinhasDe(ini + [x], u))
  {
    DebitarSnoc(ini, x, id, valor);
    TotaisDeSnoc(ini, x, u);
    TotaisDeSnoc(Debitar(ini, id, valor), Debitada(x, id, valor), u);
  }

  lemma DebitarSnoc(cs: seq<Caixinha>, c: Caixinha, id: int, valor: real)
    ensures Debitar(cs + [c], id, valor) == Debitar(cs, id, valor) + [Debitada(c, id, valor)]
  {
  }

  /** Appending an envelope adds its spend and limit to its owner's totals only. */
  lemma TotaisDeSnoc(cs: seq<Caixinha>, c: Caixinha, u: int)
    ensures TotalGasto(CaixinhasDe(cs + [c], u)) == TotalGasto(CaixinhasDe(cs, u)) + (if c.userId == u then c.gastoAtual else 0.0)
    ensures TotalLimite(CaixinhasDe(cs + [c], u)) == TotalLimite(CaixinhasDe(cs, u)) + (if c.userId == u then c.limite else 0.0)
  {
    CaixinhasDeSnoc(cs, c, u);
    if c.userId == u {
      TotaisSnoc(CaixinhasDe(cs, u), c);
    } else {
      assert CaixinhasDe(cs, u) + [] == CaixinhasDe(cs, u);
    }
  }

  lemma PertenceSnoc(ini: seq<Caixinha>, x: Caixinha, id: int, u: int)
    requires IdsUnicos(ini + [x])
    ensures IdsUnicos(ini)
    ensures Pertence(ini + [x], id, u) <==> Pertence(ini, id, u) || (x.id == id && x.userId == u)
    ensures x.id == id ==> !Pertence(ini, id, u)
  {
    var cs := ini + [x];
    assert forall i :: 0 <= i < |ini| ==> ini[i] == cs[i];
    assert cs[|ini|] == x;
    assert forall i :: 0 <= i < |ini| ==> ini[i].id != x.id;
    if Pertence(ini, id, u) {
      var i :| 0 <= i < |ini| && ini[i].id == id && ini[i].userId == u;
      assert cs[i] == ini[i];
    }
    if Pertence(cs, id, u) {
      var i :| 0 <= i < |cs| && cs[i].id == id && cs[i].userId == u;
      if i < |ini| {
        assert ini[i] == cs[i];
      }
    }
  }

  /**
   * After the cycle reset the user's envelopes have no spend left, keep their limits,
   * and every other user's envelopes are as they were.
   */
  lemma {:induction false} TotaisAposZerar(cs: seq<Caixinha>, u: int)
    ensures TotalGasto(CaixinhasDe(ZerarGastos(cs, u), u)) == 0.0
    ensures TotalLimite(CaixinhasDe(ZerarGastos(cs, u), u)) == TotalLimite(CaixinhasDe(cs, u))
    ensures forall v :: v != u ==> CaixinhasDe(ZerarGastos(cs, u), v) == CaixinhasDe(cs, v)
  {
    if cs == [] {
      assert ZerarGastos(cs, u) == [];
      assert CaixinhasDe([], u) == [];
    } else {
      var ini := cs[..|cs| - 1];
      var x := cs[|cs| - 1];
      assert cs == ini + [x];
      TotaisAposZerar(ini, u);
      PassoZerar(ini, x, u);
    }
  }

  lemma ContagemPasso(cs: seq<Caixinha>, i: nat, u: int)
    requires i < |cs|
    ensures |CaixinhasDe(cs[..i + 1], u)| == |CaixinhasDe(cs[..i], u)| + (if cs[i].userId == u then 1 else 0)
  {
    assert cs[..i + 1] == cs[..i] + [cs[i]];
    CaixinhasDeSnoc(cs[..i], cs[i], u);
  }

  lemma ZerarPreservaIds(cs: seq<Caixinha>, u: int)
    requires IdsUnicos(cs)
    ensures IdsUnicos(ZerarGastos(cs, u))
  {
    var zs := ZerarGastos(cs, u);
    assert forall i :: 0 <= i < |cs| ==> zs[i].id == cs[i].id;
  }

  lemma ZerarGastosSnoc(cs: seq<Caixinha>, c: Caixinha, u: int)
    ensures ZerarGastos(cs + [c], u) == ZerarGastos(cs, u) + [Zerada(c, u)]
  {
  }

  lemma PassoZerar(ini: seq<Caixinha>, x: Caixinha, u: int)
    requires TotalGasto(CaixinhasDe(ZerarGastos(ini, u), u)) == 0.0
    requires TotalLimite(CaixinhasDe(ZerarGastos(ini, u), u)) == TotalLimite(CaixinhasDe(ini, u))
    requires forall v :: v != u ==> CaixinhasDe(ZerarGastos(ini, u), v) == CaixinhasDe(ini, v)
    ensures TotalGasto(CaixinhasDe(ZerarGastos(ini + [x], u), u)) == 0.0
    ensures TotalLimite(CaixinhasDe(ZerarGastos(ini + [x], u), u)) == TotalLimite(CaixinhasDe(ini + [x], u))
    ensures forall v :: v != u ==> CaixinhasDe(ZerarGastos(ini + [x], u), v) == CaixinhasDe(ini + [x], v)
  {
    var y := Zerada(x, u);
    ZerarGastosSnoc(ini, x, u);
    forall v | v != u
      ensures CaixinhasDe(ZerarGastos(ini + [x], u), v) == CaixinhasDe(ini + [x], v)
    {
      CaixinhasDeSnoc(ini, x, v);
      CaixinhasDeSnoc(ZerarGastos(ini, u), y, v);
    }
    TotaisDeSnoc(ini, x, u);
    TotaisDeSnoc(ZerarGastos(ini, u), y, u);
  }

  /** Once the user's monthly report is drawn after a reset, all of the limit is available again. */
  lemma RelatorioAposReset(cs: seq<Caixinha>, u: int)
    ensures TotalLimite(CaixinhasDe(ZerarGastos(cs, u), u)) - TotalGasto(CaixinhasDe(ZerarGastos(cs, u), u)) ==
            TotalLimite(CaixinhasDe(cs, u))
  {
    TotaisAposZerar(cs, u);
  }

  /** Saving appends: a payee already known keeps its first entry, a new one is found as the saved row. */
  lemma {:induction false} PrimeiroEstabelecimentoSnoc(es: seq<EstabelecimentoConhecido>, e: EstabelecimentoConhecido, u: int, chave: string)
    ensures PrimeiroEstabelecimento(es + [e], u, chave) ==
            if PrimeiroEstabelecimento(es, u, chave).Some? then PrimeiroEstabelecimento(es, u, chave)
            else if e.userId == u && e.nomeEstabelecimento == chave then Some(e)
            else None
  {
    if es != [] {
      assert (es + [e])[1..] == es[1..] + [e];
      PrimeiroEstabelecimentoSnoc(es[1..], e, u, chave);
    }
  }

  /**
   * A payee saved under one spelling is found under any spelling with the same
   * upper-case form, the lower-case one included; the first entry wins.
   */
  lemma MemoriaAposSalvar(es: seq<EstabelecimentoConhecido>, id: int, u: int, nome: string, caixinhaId: int, outra: string)
    requires Maiusculas(outra) == Maiusculas(nome)
    ensures var e := EstabelecimentoConhecido(id, u, Maiusculas(nome), caixinhaId);
            var antes := PrimeiroEstabelecimento(es, u, Maiusculas(outra));
            var depois := PrimeiroEstabelecimento(es + [e], u, Maiusculas(outra));
            depois.Some? && depois.value.userId == u &&
            depois == (if antes.Some? then antes else Some(e)) &&
            PrimeiroEstabelecimento(es + [e], u, Maiusculas(Minusculas(nome))) == PrimeiroEstabelecimento(es + [e], u, Maiusculas(nome))
  {
    var e := EstabelecimentoConhecido(id, u, Maiusculas(nome), caixinhaId);
    PrimeiroEstabelecimentoSnoc(es, e, u, Maiusculas(outra));
    MaiusculasIgnoraCaixa(nome);
  }

  /** After the wipe the user owns nothing and has no closing day; other users keep their envelopes. */
  lemma ApagarUsuario(cs: seq<Caixinha>, cfgs: seq<ConfiguracaoUsuario>, u: int)
    ensures CaixinhasDe(CaixinhasExceto(cs, u), u) == []
    ensures forall v :: v != u ==> CaixinhasDe(CaixinhasExceto(cs, u), v) == CaixinhasDe(cs, v)
    ensures DiaFechamentoEm(ConfigsExceto(cfgs, u), u) == None
  {
    CaixinhasAposApagar(cs, u);
    var rc := ConfigsExceto(cfgs, u);
    forall i | 0 <= i < |rc|
      ensures rc[i].userId != u
    {
      assert rc[i] in rc;
    }
  }

  lemma {:induction false} CaixinhasAposApagar(cs: seq<Caixinha>, u: int)
    ensures CaixinhasDe(CaixinhasExceto(cs, u), u) == []
    ensures forall v :: v != u ==> CaixinhasDe(CaixinhasExceto(cs, u), v) == CaixinhasDe(cs, v)
  {
    if cs != [] {
      var ini := cs[..|cs| - 1];
      var x := cs[|cs| - 1];
      assert cs == ini + [x];
      CaixinhasAposApagar(ini, u);
      PassoApagar(ini, x, u);
    }
  }

  lemma PassoApagar(ini: seq<Caixinha>, x: Caixinha, u: int)
    requires CaixinhasDe(CaixinhasExceto(ini, u), u) == []
    requires forall v :: v != u ==> CaixinhasDe(CaixinhasExceto(ini, u), v) == CaixinhasDe(ini, v)
    ensures CaixinhasDe(CaixinhasExceto(ini + [x], u), u) == []
    ensures forall v :: v != u ==> CaixinhasDe(CaixinhasExceto(ini + [x], u), v) == CaixinhasDe(ini + [x], v)
  {
    CaixinhasExcetoSnoc(ini, x, u);
    if x.userId != u {
      CaixinhasDeSnoc(CaixinhasExceto(ini, u), x, u);
      forall v | v != u
        ensures CaixinhasDe(CaixinhasExceto(ini + [x], u), v) == CaixinhasDe(ini + [x], v)
      {
        CaixinhasDeSnoc(ini, x, v);
        CaixinhasDeSnoc(CaixinhasExceto(ini, u), x, v);
      }
    } else {
      assert CaixinhasExceto(ini + [x], u) == CaixinhasExceto(ini, u);
      forall v | v != u
        ensures CaixinhasDe(CaixinhasExceto(ini + [x], u), v) == CaixinhasDe(ini + [x], v)
      {
        CaixinhasDeSnoc(ini, x, v);
      }
    }
  }

  // ---------------------------------------------------------------- history properties

  /** Each transaction of the period lies in exactly one bucket: the one of its month and category. */
  lemma UmGrupoPorTransacao(ts: seq<Transacao>, t: Transacao, m: MesAno, c: string)
    requires t in ts
    ensures t in DoGrupo(ts, m, c) <==> m == MesAnoDe(t) && c == CategoriaDe(t)
  {
  }

  /** How often x occurs in a list of bucket keys. */
  function Ocorrencias(ks: seq<(MesAno, string)>, x: (MesAno, string)): nat {
    if ks == [] then 0 else Ocorrencias(ks[..|ks| - 1], x) + (if ks[|ks| - 1] == x then 1 else 0)
  }

  /** The bucket sizes over a list of keys. */
  function Contagens(ts: seq<Transacao>, ks: seq<(MesAno, string)>): nat {
    if ks == [] then 0 else Contagens(ts, ks[..|ks| - 1]) + |DoGrupo(ts, ks[|ks| - 1].0, ks[|ks| - 1].1)|
  }

  lemma {:induction false} OcorrenciaUnica(ks: seq<(MesAno, string)>, x: (MesAno, string))
    requires Distintos(ks) && x in ks
    ensures Ocorrencias(ks, x) == 1
  {
    var ini := ks[..|ks| - 1];
    assert Distintos(ini) by {
      assert forall i :: 0 <= i < |ini| ==> ini[i] == ks[i];
    }
    if ks[|ks| - 1] == x {
      OcorrenciaAusente(ini, x);
    } else {
      assert x in ini;
      OcorrenciaUnica(ini, x);
    }
  }

  lemma {:induction false} OcorrenciaAusente(ks: seq<(MesAno, string)>, x: (MesAno, string))
    requires x !in ks
    ensures Ocorrencias(ks, x) == 0
  {
    if ks != [] {
      assert ks[..|ks| - 1] + [ks[|ks| - 1]] == ks;
      OcorrenciaAusente(ks[..|ks| - 1], x);
    }
  }

  lemma {:induction false} ContagensSnoc(ts: seq<Transacao>, t: Transacao, ks: seq<(MesAno, string)>)
    ensures Contagens(ts + [t], ks) == Contagens(ts, ks) + Ocorrencias(ks, (MesAnoDe(t), CategoriaDe(t)))
  {
    if ks != [] {
      var k := ks[|ks| - 1];
      ContagensSnoc(ts, t, ks[..|ks| - 1]);
      DoGrupoSnoc(ts, t, k.0, k.1);
    }
  }

  /**
   * The bucket counts add up to the number of transactions: summed over any list that
   * names each bucket once, the sizes of the buckets are |ts|.
   */
  lemma {:induction false} ContagensSomam(ts: seq<Transacao>, ks: seq<(MesAno, string)>)
    requires Distintos(ks)
    requires forall t :: t in ts ==> (MesAnoDe(t), CategoriaDe(t)) in ks
    ensures Contagens(ts, ks) == |ts|
  {
    if ts == [] {
      ContagensVazio(ks);
    } else {
      var ini := ts[..|ts| - 1];
      var t := ts[|ts| - 1];
      assert ts == ini + [t];
      ContagensSomam(ini, ks);
      ContagensSnoc(ini, t, ks);
      OcorrenciaUnica(ks, (MesAnoDe(t), CategoriaDe(t)));
    }
  }

  lemma {:induction false} ContagensVazio(ks: seq<(MesAno, string)>)
    ensures Contagens([], ks) == 0
  {
    if ks != [] {
      ContagensVazio(ks[..|ks| - 1]);
    }
  }

  // ---------------------------------------------------------------- helper lemmas

  lemma TotaisSnoc(cs: seq<Caixinha>, c: Caixinha)
    ensures TotalGasto(cs + [c]) == TotalGasto(cs) + c.gastoAtual
    ensures TotalLimite(cs + [c]) == TotalLimite(cs) + c.limite
  {
    assert (cs + [c])[..|cs|] == cs;
  }

  lemma CaixinhasExcetoSnoc(cs: seq<Caixinha>, c: Caixinha, u: int)
    ensures CaixinhasExceto(cs + [c], u) == CaixinhasExceto(cs, u) + (if c.userId != u then [c] else [])
  {
    assert (cs + [c])[..|cs|] == cs;
  }

  lemma DistintosSnoc<T>(xs: seq<T>, x: T)
    requires Distintos(xs) && x !in xs
    ensures Distintos(xs + [x])
  {
  }

  lemma CaixinhasDeSnoc(cs: seq<Caixinha>, c: Caixinha, u: int)
    ensures CaixinhasDe(cs + [c], u) == CaixinhasDe(cs, u) + (if c.userId == u then [c] else [])
  {
    assert (cs + [c])[..|cs|] == cs;
  }

  lemma IndiceConfigIgnoraOutro(cfgs: seq<ConfiguracaoUsuario>, k: nat, nova: ConfiguracaoUsuario, v: int)
    requires k < |cfgs| && nova.userId == cfgs[k].userId && v != nova.userId
    ensures IndiceConfig(cfgs[k := nova], v) == IndiceConfig(cfgs, v)
  {
    if k > 0 {
      assert cfgs[k := nova][1..] == cfgs[1..][k - 1 := nova];
      IndiceConfigIgnoraOutro(cfgs[1..], k - 1, nova, v);
    }
  }

  lemma IndiceConfigAposAtualizar(cfgs: seq<ConfiguracaoUsuario>, k: nat, nova: ConfiguracaoUsuario)
    requires IndiceConfig(cfgs, nova.userId) == Some(k)
    ensures IndiceConfig(cfgs[k := nova], nova.userId) == Some(k)
  {
    if k > 0 {
      assert cfgs[k := nova][1..] == cfgs[1..][k - 1 := nova];
      IndiceConfigAposAtualizar(cfgs[1..], k - 1, nova);
    }
  }

  lemma IndiceConfigAposInserir(cfgs: seq<ConfiguracaoUsuario>, nova: ConfiguracaoUsuario)
    requires IndiceConfig(cfgs, nova.userId).None?
    ensures IndiceConfig(cfgs + [nova], nova.userId) == Some(|cfgs|)
    ensures forall v :: v != nova.userId ==> IndiceConfig(cfgs + [nova], v) == IndiceConfig(cfgs, v)
  {
    IndiceDoNovo(cfgs, nova);
    forall v | v != nova.userId
      ensures IndiceConfig(cfgs + [nova], v) == IndiceConfig(cfgs, v)
    {
      IndiceDeOutro(cfgs, nova, v);
    }
  }

  lemma {:induction false} IndiceDoNovo(cfgs: seq<ConfiguracaoUsuario>, nova: ConfiguracaoUsuario)
    requires IndiceConfig(cfgs, nova.userId).None?
    ensures IndiceConfig(cfgs + [nova], nova.userId) == Some(|cfgs|)
  {
    if cfgs != [] {
      assert (cfgs + [nova])[1..] == cfgs[1..] + [nova];
      IndiceDoNovo(cfgs[1..], nova);
    }
  }

  lemma {:induction false} IndiceDeOutro(cfgs: seq<ConfiguracaoUsuario>, nova: ConfiguracaoUsuario, v: int)
    requires v != nova.userId
    ensures IndiceConfig(cfgs + [nova], v) == IndiceConfig(cfgs, v)
  {
    if cfgs != [] {
      assert (cfgs + [nova])[1..] == cfgs[1..] + [nova];
      IndiceDeOutro(cfgs[1..], nova, v);
    }
  }

  lemma SubsequenciaPreservaIds(cs: seq<Caixinha>, u: int)
    requires IdsUnicos(cs)
    ensures IdsUnicos(CaixinhasExceto(cs, u))
  {
    if cs != [] {
      var ini := cs[..|cs| - 1];
      assert forall i, j :: 0 <= i < j < |ini| ==> ini[i] == cs[i] && ini[j] == cs[j];
      SubsequenciaPreservaIds(ini, u);
      var x := cs[|cs| - 1];
      assert forall c :: c in ini ==> c.id != x.id;
    }
  }

  lemma SubsequenciaPreservaConfig(cfgs: seq<ConfiguracaoUsuario>, u: int)
    requires UmaConfigPorUsuario(cfgs)
    ensures UmaConfigPorUsuario(ConfigsExceto(cfgs, u))
  {
    if cfgs != [] {
      var ini := cfgs[..|cfgs| - 1];
      assert forall i, j :: 0 <= i < j < |ini| ==> ini[i] == cfgs[i] && ini[j] == cfgs[j];
      SubsequenciaPreservaConfig(ini, u);
      var x := cfgs[|cfgs| - 1];
      assert forall c :: c in ini ==> c.userId != x.userId;
    }
  }

  /** Every transaction has its (month, category) bucket. */
  predicate Cobre(grupos: map<MesAno, map<string, Grupo>>, ts: seq<Transacao>) {
    forall t :: t in ts ==> MesAnoDe(t) in grupos && CategoriaDe(t) in grupos[MesAnoDe(t)]
  }

  /** Every bucket is non-empty and sums up exactly the transactions that fall in it. */
  predicate Resume(grupos: map<MesAno, map<string, Grupo>>, ts: seq<Transacao>) {
    forall m, c :: m in grupos && c in grupos[m] ==> DoGrupo(ts, m, c) != [] && grupos[m][c] == Resumo(DoGrupo(ts, m, c))
  }

  /** The bucket of (m, c) as the loop body reads it, an empty one when missing. */
  function Balde(grupos: map<MesAno, map<string, Grupo>>, m: MesAno, c: string): Grupo {
    if m in grupos && c in grupos[m] then grupos[m][c] else Grupo(0.0, 0, [])
  }

  /** The loop body of get_historico_consolidado: t is added to its bucket, created empty when missing. */
  function Acrescentar(grupos: map<MesAno, map<string, Grupo>>, t: Transacao): map<MesAno, map<string, Grupo>> {
    var m := MesAnoDe(t);
    var c := CategoriaDe(t);
    var porCategoria := if m in grupos then grupos[m] else map[];
    var g := Balde(grupos, m, c);
    grupos[m := porCategoria[c := Grupo(g.total + t.valor, g.count + 1, g.transacoes + [t])]]
  }

  /** The dict get_historico_consolidado has built after visiting ts in order. */
  function Agrupar(ts: seq<Transacao>): map<MesAno, map<string, Grupo>> {
    if ts == [] then map[] else Acrescentar(Agrupar(ts[..|ts| - 1]), ts[|ts| - 1])
  }

  /** The months the loop has seen, sorted, with the dict it built, meet get_historico_consolidado's result. */
  lemma HistoricoAgrupado(ts: seq<Transacao>, ordem: seq<MesAno>)
    requires Distintos(ordem)
    requires forall m :: m in ordem <==> m in Agrupar(ts)
    ensures OrdenadoDesc(OrdenarMeses(ordem))
    ensures forall m :: m in OrdenarMeses(ordem) <==> m in Agrupar(ts)
    ensures Cobre(Agrupar(ts), ts) && Resume(Agrupar(ts), ts)
  {
    AgruparResume(ts);
  }

  lemma AcrescentarChaves(grupos: map<MesAno, map<string, Grupo>>, t: Transacao)
    ensures forall m :: m in Acrescentar(grupos, t) <==> m in grupos || m == MesAnoDe(t)
  {
  }

  lemma AgruparSnoc(ts: seq<Transacao>, i: nat)
    requires i < |ts|
    ensures Agrupar(ts[..i + 1]) == Acrescentar(Agrupar(ts[..i]), ts[i])
  {
    assert ts[..i + 1][..i] == ts[..i];
  }

  /** The loop's dict has exactly one bucket per (month, category) present, each summing its transactions. */
  lemma {:induction false} AgruparResume(ts: seq<Transacao>)
    ensures Cobre(Agrupar(ts), ts) && Resume(Agrupar(ts), ts)
  {
    if ts != [] {
      var ini := ts[..|ts| - 1];
      assert ini + [ts[|ts| - 1]] == ts;
      AgruparResume(ini);
      AcrescentarPasso(Agrupar(ini), ini, ts[|ts| - 1]);
    }
  }

  lemma DoGrupoSnoc(ts: seq<Transacao>, t: Transacao, m: MesAno, c: string)
    ensures DoGrupo(ts + [t], m, c) == DoGrupo(ts, m, c) + (if MesAnoDe(t) == m && CategoriaDe(t) == c then [t] else [])
  {
    assert (ts + [t])[..|ts|] == ts;
  }

  lemma SomaValoresSnoc(ts: seq<Transacao>, t: Transacao)
    ensures SomaValores(ts + [t]) == SomaValores(ts) + t.valor
  {
    assert (ts + [t])[..|ts|] == ts;
  }

  lemma GrupoPresente(grupos: map<MesAno, map<string, Grupo>>, ts: seq<Transacao>, m: MesAno, c: string)
    requires Cobre(grupos, ts) && DoGrupo(ts, m, c) != []
    ensures m in grupos && c in grupos[m]
  {
    var x := DoGrupo(ts, m, c)[0];
    assert x in DoGrupo(ts, m, c);
  }

  lemma AcrescentarCobre(grupos: map<MesAno, map<string, Grupo>>, ts: seq<Transacao>, t: Transacao)
    requires Cobre(grupos, ts)
    ensures Cobre(Acrescentar(grupos, t), ts + [t])
  {
    var g2 := Acrescentar(grupos, t);
    forall x | x in ts + [t]
      ensures MesAnoDe(x) in g2 && CategoriaDe(x) in g2[MesAnoDe(x)]
    {
      if x != t {
        assert x in ts;
      }
    }
  }

  /** The bucket t falls in gains t. */
  lemma AcrescentarMesmoGrupo(grupos: map<MesAno, map<string, Grupo>>, ts: seq<Transacao>, t: Transacao)
    requires Balde(grupos, MesAnoDe(t), CategoriaDe(t)) == Resumo(DoGrupo(ts, MesAnoDe(t), CategoriaDe(t)))
    ensures MesAnoDe(t) in Acrescentar(grupos, t) && CategoriaDe(t) in Acrescentar(grupos, t)[MesAnoDe(t)]
    ensures Acrescentar(grupos, t)[MesAnoDe(t)][CategoriaDe(t)] == Resumo(DoGrupo(ts + [t], MesAnoDe(t), CategoriaDe(t)))
  {
    DoGrupoSnoc(ts, t, MesAnoDe(t), CategoriaDe(t));
    BaldeCresce(grupos, t, DoGrupo(ts, MesAnoDe(t), CategoriaDe(t)));
  }

  lemma BaldeCresce(grupos: map<MesAno, map<string, Grupo>>, t: Transacao, d: seq<Transacao>)
    requires Balde(grupos, MesAnoDe(t), CategoriaDe(t)) == Resumo(d)
    ensures MesAnoDe(t) in Acrescentar(grupos, t) && CategoriaDe(t) in Acrescentar(grupos, t)[MesAnoDe(t)]
    ensures Acrescentar(grupos, t)[MesAnoDe(t)][CategoriaDe(t)] == Resumo(d + [t])
  {
    SomaValoresSnoc(d, t);
  }

  /** The bucket of (m, c) as the loop finds it: the summary of what fell in it. */
  lemma GrupoAtual(grupos: map<MesAno, map<string, Grupo>>, ts: seq<Transacao>, m: MesAno, c: string)
    requires Cobre(grupos, ts) && Resume(grupos, ts)
    ensures Balde(grupos, m, c) == Resumo(DoGrupo(ts, m, c))
  {
    if DoGrupo(ts, m, c) != [] {
      GrupoPresente(grupos, ts, m, c);
    } else {
      assert !(m in grupos && c in grupos[m]);
    }
  }

  /** Every other bucket keeps its contents. */
  lemma AcrescentarOutroGrupo(grupos: map<MesAno, map<string, Grupo>>, ts: seq<Transacao>, t: Transacao, m2: MesAno, c2: string)
    requires (m2, c2) != (MesAnoDe(t), CategoriaDe(t))
    requires Resume(grupos, ts)
    requires m2 in Acrescentar(grupos, t) && c2 in Acrescentar(grupos, t)[m2]
    ensures m2 in grupos && c2 in grupos[m2]
    ensures Acrescentar(grupos, t)[m2][c2] == grupos[m2][c2]
    ensures DoGrupo(ts + [t], m2, c2) == DoGrupo(ts, m2, c2)
  {
    DoGrupoSnoc(ts, t, m2, c2);
  }

  lemma AcrescentarPasso(grupos: map<MesAno, map<string, Grupo>>, ts: seq<Transacao>, t: Transacao)
    requires Cobre(grupos, ts) && Resume(grupos, ts)
    ensures Cobre(Acrescentar(grupos, t), ts + [t]) && Resume(Acrescentar(grupos, t), ts + [t])
  {
    AcrescentarCobre(grupos, ts, t);
    var g2 := Acrescentar(grupos, t);
    forall m2, c2 | m2 in g2 && c2 in g2[m2]
      ensures DoGrupo(ts + [t], m2, c2) != [] && g2[m2][c2] == Resumo(DoGrupo(ts + [t], m2, c2))
    {
      DoGrupoSnoc(ts, t, m2, c2);
      if (m2, c2) == (MesAnoDe(t), CategoriaDe(t)) {
        GrupoAtual(grupos, ts, m2, c2);
        AcrescentarMesmoGrupo(grupos, ts, t);
      } else {
        AcrescentarOutroGrupo(grupos, ts, t, m2, c2);
      }
    }
  }


}
