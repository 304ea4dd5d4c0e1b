/**
 * The decisions of the two daily sweeps of scheduler_v3.py: the automatic reset on
 * the day after the card's closing day, and the closing report sent on the closing day.
 */
module Agendador {
  import opened Comum
  import opened Calendario
  import opened Banco

  // ---------------------------------------------------------------- reset day

  /** The day after the closing day; a closing day of 28 or more resets on the 1st. */
  function DiaReset(d: int): (r: int)
    ensures 1 <= d <= 28 ==> 1 <= r <= 28 && r != d
  {
    if d < 28 then d + 1 else 1
  }

  /** On the closing days 1..28 the reset day is a cyclic shift: each day of 1..28 is the reset day of exactly one of them. */
  lemma DiaResetCiclico(r: int)
    requires 1 <= r <= 28
    ensures var d := if r == 1 then 28 else r - 1;
            1 <= d <= 28 && DiaReset(d) == r &&
            forall e :: 1 <= e <= 28 && DiaReset(e) == r ==> e == d
  {
  }

  // ---------------------------------------------------------------- reset sweep

  predicate ResetHoje(c: ConfiguracaoUsuario, hoje: int) {
    c.diaFechamento.Some? && DiaReset(c.diaFechamento.value) == hoje
  }

  /** The users, in config order, whose reset day is today. */
  function UsuariosAResetar(cfgs: seq<ConfiguracaoUsuario>, hoje: int): seq<int>
  {
    if cfgs == [] then []
    else
      var c := cfgs[|cfgs| - 1];
      UsuariosAResetar(cfgs[..|cfgs| - 1], hoje) + (if ResetHoje(c, hoje) then [c.userId] else [])
  }

  /** Exactly the users with a config whose reset day is today are listed. */
  lemma {:induction false} UsuariosAResetarMembros(cfgs: seq<ConfiguracaoUsuario>, hoje: int)
    ensures forall u :: u in UsuariosAResetar(cfgs, hoje) <==>
              exists k :: 0 <= k < |cfgs| && cfgs[k].userId == u && ResetHoje(cfgs[k], hoje)
  {
    if cfgs != [] {
      var ini := cfgs[..|cfgs| - 1];
      UsuariosAResetarMembros(ini, hoje);
      assert forall k :: 0 <= k < |ini| ==> ini[k] == cfgs[k];
    }
  }

  /** Stopping after j configs leaves a prefix of the full list. */
  lemma {:induction false} UsuariosAResetarPrefixo(cfgs: seq<ConfiguracaoUsuario>, j: nat, hoje: int)
    requires j <= |cfgs|
    ensures UsuariosAResetar(cfgs[..j], hoje) <= UsuariosAResetar(cfgs, hoje)
    decreases |cfgs| - j
  {
    if j < |cfgs| {
      UsuariosAResetarPrefixo(cfgs, j + 1, hoje);
      assert cfgs[..j + 1][..j] == cfgs[..j];
    } else {
      assert cfgs[..j] == cfgs;
    }
  }

  /** The envelopes after resetting each user of us in turn. */
  function ZerarVarios(cs: seq<Caixinha>, us: seq<int>): seq<Caixinha>
    decreases |us|
  {
    if us == [] then cs else ZerarGastos(ZerarVarios(cs, us[..|us| - 1]), us[|us| - 1])
  }

  /** Resetting a list of users zeroes exactly the envelopes of those users and keeps every other row. */
  lemma {:induction false} ZerarVariosEfeito(cs: seq<Caixinha>, us: seq<int>)
    ensures |ZerarVarios(cs, us)| == |cs|
    ensures forall i :: 0 <= i < |cs| ==>
              ZerarVarios(cs, us)[i] == if cs[i].userId in us then cs[i].(gastoAtual := 0.0) else cs[i]
    decreases |us|
  {
    if us != [] {
      var ini := us[..|us| - 1];
      ZerarVariosEfeito(cs, ini);
      assert us == ini + [us[|us| - 1]];
      assert forall v :: v in us <==> v in ini || v == us[|us| - 1];
    }
  }

  /** Two tables with the same owner in every row give every user the same number of envelopes. */
  lemma {:induction false} MesmosDonos(a: seq<Caixinha>, b: seq<Caixinha>, u: int)
    requires |a| == |b|
    requires forall i :: 0 <= i < |a| ==> a[i].userId == b[i].userId
    ensures |CaixinhasDe(a, u)| == |CaixinhasDe(b, u)|
  {
    if a != [] {
      var n := |a| - 1;
      MesmosDonos(a[..n], b[..n], u);
      assert a == a[..n] + [a[n]];
      assert b == b[..n] + [b[n]];
      CaixinhasDeSnoc(a[..n], a[n], u);
      CaixinhasDeSnoc(b[..n], b[n], u);
    }
  }

  lemma ContagemAposZerarVarios(cs: seq<Caixinha>, us: seq<int>, u: int)
    ensures |CaixinhasDe(ZerarVarios(cs, us), u)| == |CaixinhasDe(cs, u)|
  {
    ZerarVariosEfeito(cs, us);
    MesmosDonos(ZerarVarios(cs, us), cs, u);
  }

  /** A sweep stopped at config i has reset a prefix of the list, the user of config i next in it. */
  lemma ParadaNoErro(cfgs: seq<ConfiguracaoUsuario>, i: nat, hoje: int)
    requires i < |cfgs| && ResetHoje(cfgs[i], hoje)
    ensures UsuariosAResetar(cfgs[..i], hoje) + [cfgs[i].userId] <= UsuariosAResetar(cfgs, hoje)
  {
    UsuariosAResetarSnoc(cfgs, i, hoje);
    UsuariosAResetarPrefixo(cfgs, i + 1, hoje);
  }

  lemma UsuariosAResetarSnoc(cfgs: seq<ConfiguracaoUsuario>, i: nat, hoje: int)
    requires i < |cfgs|
    ensures UsuariosAResetar(cfgs[..i + 1], hoje) ==
            UsuariosAResetar(cfgs[..i], hoje) + (if ResetHoje(cfgs[i], hoje) then [cfgs[i].userId] else [])
  {
    assert cfgs[..i + 1][..i] == cfgs[..i];
  }

  lemma ZerarVariosSnoc(cs: seq<Caixinha>, us: seq<int>, u: int)
    ensures ZerarVarios(cs, us + [u]) == ZerarGastos(ZerarVarios(cs, us), u)
  {
    assert (us + [u])[..|us|] == us;
  }

  /** The reset notice: how many envelopes were zeroed. */
  datatype AvisoReset = AvisoReset(userId: int, caixinhasResetadas: nat)

  /** The notices for the users us, skipping those whose notice fails to send. */
  function Avisos(us: seq<int>, cs: seq<Caixinha>, falhaEnvio: set<int>): seq<AvisoReset>
  {
    if us == [] then []
    else
      var u := us[|us| - 1];
      Avisos(us[..|us| - 1], cs, falhaEnvio) + (if u in falhaEnvio then [] else [AvisoReset(u, |CaixinhasDe(cs, u)|)])
  }

  /** One notice for each reset user whose message got through, carrying that user's envelope count, and no other. */
  lemma {:induction false} AvisosCorretos(us: seq<int>, cs: seq<Caixinha>, falhaEnvio: set<int>)
    ensures forall a :: a in Avisos(us, cs, falhaEnvio) ==>
              a.userId in us && a.userId !in falhaEnvio && a.caixinhasResetadas == |CaixinhasDe(cs, a.userId)|
    ensures forall u :: u in us && u !in falhaEnvio ==> AvisoReset(u, |CaixinhasDe(cs, u)|) in Avisos(us, cs, falhaEnvio)
  {
    if us != [] {
      var u := us[|us| - 1];
      var ini := us[..|us| - 1];
      assert us == ini + [u];
      AvisosCorretos(ini, cs, falhaEnvio);
    }
  }

  lemma AvisosSnoc(us: seq<int>, u: int, cs: seq<Caixinha>, falhaEnvio: set<int>)
    ensures Avisos(us + [u], cs, falhaEnvio) ==
            Avisos(us, cs, falhaEnvio) + (if u in falhaEnvio then [] else [AvisoReset(u, |CaixinhasDe(cs, u)|)])
  {
    assert (us + [u])[..|us|] == us;
  }

  /** One user of the sweep: zero the envelopes, then send the notice unless sending fails. */
  method ResetarEAvisar(db: Database, u: int, ghost cs0: seq<Caixinha>, resetados: seq<int>,
                        avisos: seq<AvisoReset>, falhaEnvio: set<int>) returns (avisos2: seq<AvisoReset>)
    requires db.Valid()
    requires db.caixinhas == ZerarVarios(cs0, resetados)
    requires avisos == Avisos(resetados, cs0, falhaEnvio)
    modifies db
    ensures db.Valid()
    ensures db.caixinhas == ZerarVarios(cs0, resetados + [u])
    ensures avisos2 == Avisos(resetados + [u], cs0, falhaEnvio)
    ensures db.transacoes == old(db.transacoes) && db.estabelecimentos == old(db.estabelecimentos)
    ensures db.configuracoes == old(db.configuracoes)
  {
    ContagemAposZerarVarios(cs0, resetados, u);
    ZerarVariosSnoc(cs0, resetados, u);
    AvisosSnoc(resetados, u, cs0, falhaEnvio);
    var n := db.ResetarGastosMensais(u);
    avisos2 := avisos;
    if u !in falhaEnvio {
      avisos2 := avisos2 + [AvisoReset(u, n)];
    }
  }

  /**
   * verificar_reset_automatico. falhaReset are the users whose reset raises: the outer
   * handler catches it and the rest of the sweep is skipped. falhaEnvio are the users
   * whose notice fails: that is logged and the reset stays done.
   */
  method VerificarResetAutomatico(db: Database, hoje: int, falhaReset: set<int>, falhaEnvio: set<int>)
    returns (resetados: seq<int>, avisos: seq<AvisoReset>, erro: Option<int>)
    requires db.Valid()
    modifies db
    ensures db.Valid()
    ensures db.caixinhas == ZerarVarios(old(db.caixinhas), resetados)
    ensures db.transacoes == old(db.transacoes) && db.estabelecimentos == old(db.estabelecimentos)
    ensures db.configuracoes == old(db.configuracoes)
    ensures erro.None? ==> resetados == UsuariosAResetar(old(db.configuracoes), hoje)
    ensures erro.Some? ==> erro.value in falhaReset &&
                           resetados + [erro.value] <= UsuariosAResetar(old(db.configuracoes), hoje)
    ensures forall u :: u in resetados ==> u !in falhaReset
    ensures avisos == Avisos(resetados, old(db.caixinhas), falhaEnvio)
  {
    var cfgs := db.configuracoes;
    ghost var cs0 := db.caixinhas;
    ghost var ts0, es0 := db.transacoes, db.estabelecimentos;
    resetados, avisos, erro := [], [], None;
    var i := 0;
    while i < |cfgs|
      invariant 0 <= i <= |cfgs|
      invariant db.Valid()
      invariant db.configuracoes == cfgs && db.transacoes == ts0 && db.estabelecimentos == es0
      invariant resetados == UsuariosAResetar(cfgs[..i], hoje)
      invariant forall u :: u in resetados ==> u !in falhaReset
      invariant db.caixinhas == ZerarVarios(cs0, resetados)
      invariant avisos == Avisos(resetados, cs0, falhaEnvio)
    {
      UsuariosAResetarSnoc(cfgs, i, hoje);
      var c := cfgs[i];
      if ResetHoje(c, hoje) {
        if c.userId in falhaReset {
          erro := Some(c.userId);
          ParadaNoErro(cfgs, i, hoje);
          return;
        }
        avisos := ResetarEAvisar(db, c.userId, cs0, resetados, avisos, falhaEnvio);
        resetados := resetados + [c.userId];
      }
      i := i + 1;
    }
    assert cfgs[..i] == cfgs;
  }

  // ---------------------------------------------------------------- closing report

  /** The status mark of a report line: below 50, below 80, below 90, and the rest. */
  datatype Faixa = Tranquila | Moderada | Proxima | Critica

  function FaixaRelatorio(p: real): (f: Faixa)
    ensures f == Tranquila <==> p < 50.0
    ensures f == Moderada <==> 50.0 <= p < 80.0
    ensures f == Proxima <==> 80.0 <= p < 90.0
    ensures f == Critica <==> p >= 90.0
  {
    if p < 50.0 then Tranquila else if p < 80.0 then Moderada else if p < 90.0 then Proxima else Critica
  }

  datatype LinhaRelatorio = LinhaRelatorio(nome: string, gasto: real, limite: real, percentual: real,
                                           faixa: Faixa, restante: real)

  function LinhaDe(c: Caixinha): LinhaRelatorio {
    var p := PercentualUsado(c);
    LinhaRelatorio(c.nome, c.gastoAtual, c.limite, p, FaixaRelatorio(p), SaldoRestante(c))
  }

  /** The loop over rel['caixinhas'] that appends one block per envelope. */
  method MontarLinhas(cs: seq<Caixinha>) returns (linhas: seq<LinhaRelatorio>)
    ensures |linhas| == |cs|
    ensures forall k :: 0 <= k < |cs| ==> linhas[k] == LinhaDe(cs[k])
  {
    linhas := [];
    var i := 0;
    while i < |cs|
      invariant 0 <= i <= |cs| && |linhas| == i
      invariant forall k :: 0 <= k < i ==> linhas[k] == LinhaDe(cs[k])
    {
      linhas := linhas + [LinhaDe(cs[i])];
      i := i + 1;
    }
  }

  /** perc_total: the overall percentage used, 0 when the total limit is not positive. */
  function PercTotal(gasto: real, limite: real): (r: real)
    ensures limite <= 0.0 ==> r == 0.0
    ensures limite > 0.0 ==> r * limite == gasto * 100.0
  {
    if limite > 0.0 then gasto / limite * 100.0 else 0.0
  }

  /** With a single envelope the overall percentage is that envelope's percentage. */
  lemma PercTotalUmaCaixinha(c: Caixinha)
    ensures PercTotal(TotalGasto([c]), TotalLimite([c])) == PercentualUsado(c)
  {
    SomaDeSnoc([], c, (x: Caixinha) => x.gastoAtual);
    SomaDeSnoc([], c, (x: Caixinha) => x.limite);
    assert [] + [c] == [c];
  }

  /** The overall percentage reaches 100 exactly when the spend reaches a positive total limit. */
  lemma PercTotalCheio(gasto: real, limite: real)
    requires limite > 0.0
    ensures PercTotal(gasto, limite) >= 100.0 <==> gasto >= limite
  {
  }

  datatype RelatorioFechamento = RelatorioFechamento(
    userId: int, diaFechamento: int, linhas: seq<LinhaRelatorio>,
    totalGasto: real, totalLimite: real, totalDisponivel: real, percTotal: real,
    numTransacoes: int, diaReset: int)

  predicate RelatorioHoje(db: Database, c: ConfiguracaoUsuario, hoje: Data)
    reads db
  {
    c.diaFechamento == Some(hoje.dia) && CaixinhasDe(db.caixinhas, c.userId) != []
  }

  function RelatorioDe(db: Database, c: ConfiguracaoUsuario, hoje: Data): RelatorioFechamento
    reads db
    requires c.diaFechamento.Some?
  {
    var rel := db.GetRelatorioMensal(c.userId, hoje);
    var d := c.diaFechamento.value;
    RelatorioFechamento(c.userId, d, seq(|rel.caixinhas|, k requires 0 <= k < |rel.caixinhas| => LinhaDe(rel.caixinhas[k])),
                        rel.totalGasto, rel.totalLimite, rel.totalDisponivel,
                        PercTotal(rel.totalGasto, rel.totalLimite), rel.numTransacoes, DiaReset(d))
  }

  /** The reports of the sweep, in config order. */
  function RelatoriosDe(db: Database, cfgs: seq<ConfiguracaoUsuario>, hoje: Data): seq<RelatorioFechamento>
    reads db
  {
    if cfgs == [] then []
    else
      var c := cfgs[|cfgs| - 1];
      RelatoriosDe(db, cfgs[..|cfgs| - 1], hoje) + (if RelatorioHoje(db, c, hoje) then [RelatorioDe(db, c, hoje)] else [])
  }

  /**
   * A closing report for r.userId as of hoje: today's closing day and tomorrow's reset,
   * one line per envelope of the user in table order, the totals of those envelopes, the
   * overall percentage of the totals, and the number of the user's transactions this month.
   */
  predicate RelatorioCoerente(db: Database, r: RelatorioFechamento, hoje: Data)
    reads db
  {
    var cs := CaixinhasDe(db.caixinhas, r.userId);
    r.diaFechamento == hoje.dia && r.diaReset == DiaReset(hoje.dia) &&
    r.linhas != [] && |r.linhas| == |cs| &&
    (forall k :: 0 <= k < |cs| ==> r.linhas[k] == LinhaDe(cs[k])) &&
    r.totalGasto == TotalGasto(cs) && r.totalLimite == TotalLimite(cs) &&
    r.totalDisponivel == r.totalLimite - r.totalGasto &&
    r.percTotal == PercTotal(r.totalGasto, r.totalLimite) &&
    r.numTransacoes == |TransacoesDoMes(db.transacoes, r.userId, hoje)|
  }

  lemma RelatorioDeCoerente(db: Database, c: ConfiguracaoUsuario, hoje: Data)
    requires RelatorioHoje(db, c, hoje)
    ensures RelatorioDe(db, c, hoje).userId == c.userId
    ensures RelatorioCoerente(db, RelatorioDe(db, c, hoje), hoje)
  {
    var novo := RelatorioDe(db, c, hoje);
    assert |novo.linhas| == |db.GetRelatorioMensal(c.userId, hoje).caixinhas|;
  }

  predicate ConfigDoRelatorio(db: Database, cfgs: seq<ConfiguracaoUsuario>, hoje: Data, u: int)
    reads db
  {
    exists j :: 0 <= j < |cfgs| && cfgs[j].userId == u && RelatorioHoje(db, cfgs[j], hoje)
  }

  /**
   * A report goes out for a user exactly when one of the configs has today as closing
   * day and the user has an envelope; each report announces tomorrow's reset day and
   * has one line per envelope of the user.
   */
  lemma {:induction false} RelatoriosCoerentes(db: Database, cfgs: seq<ConfiguracaoUsuario>, hoje: Data)
    ensures forall k :: 0 <= k < |RelatoriosDe(db, cfgs, hoje)| ==>
              RelatorioCoerente(db, RelatoriosDe(db, cfgs, hoje)[k], hoje)
  {
    if cfgs != [] {
      var c := cfgs[|cfgs| - 1];
      var ini := cfgs[..|cfgs| - 1];
      var antes := RelatoriosDe(db, ini, hoje);
      RelatoriosCoerentes(db, ini, hoje);
      var r := RelatoriosDe(db, cfgs, hoje);
      assert r == antes + (if RelatorioHoje(db, c, hoje) then [RelatorioDe(db, c, hoje)] else []);
      forall k | 0 <= k < |r|
        ensures RelatorioCoerente(db, r[k], hoje)
      {
        if k < |antes| {
          assert r[k] == antes[k];
        } else {
          RelatorioDeCoerente(db, c, hoje);
          assert r[k] == RelatorioDe(db, c, hoje);
        }
      }
    }
  }

  lemma {:induction false} RelatoriosExatos(db: Database, cfgs: seq<ConfiguracaoUsuario>, hoje: Data)
    ensures forall k :: 0 <= k < |RelatoriosDe(db, cfgs, hoje)| ==>
              RelatorioCoerente(db, RelatoriosDe(db, cfgs, hoje)[k], hoje)
    ensures forall k :: 0 <= k < |RelatoriosDe(db, cfgs, hoje)| ==>
              ConfigDoRelatorio(db, cfgs, hoje, RelatoriosDe(db, cfgs, hoje)[k].userId)
    ensures forall j :: 0 <= j < |cfgs| && RelatorioHoje(db, cfgs[j], hoje) ==>
              exists k :: 0 <= k < |RelatoriosDe(db, cfgs, hoje)| && RelatoriosDe(db, cfgs, hoje)[k].userId == cfgs[j].userId
  {
    RelatoriosCoerentes(db, cfgs, hoje);
    if cfgs != [] {
      var c := cfgs[|cfgs| - 1];
      var ini := cfgs[..|cfgs| - 1];
      var antes := RelatoriosDe(db, ini, hoje);
      RelatoriosExatos(db, ini, hoje);
      var r := RelatoriosDe(db, cfgs, hoje);
      assert r == antes + (if RelatorioHoje(db, c, hoje) then [RelatorioDe(db, c, hoje)] else []);
      forall k | 0 <= k < |r|
        ensures ConfigDoRelatorio(db, cfgs, hoje, r[k].userId)
      {
        if k < |antes| {
          assert r[k] == antes[k];
          assert ConfigDoRelatorio(db, ini, hoje, antes[k].userId);
          var j :| 0 <= j < |ini| && ini[j].userId == antes[k].userId && RelatorioHoje(db, ini[j], hoje);
          assert cfgs[j] == ini[j];
        } else {
          assert r[k] == RelatorioDe(db, c, hoje);
          assert r[k].userId == c.userId;
          assert cfgs[|ini|] == c;
        }
      }
      forall j | 0 <= j < |cfgs| && RelatorioHoje(db, cfgs[j], hoje)
        ensures exists k :: 0 <= k < |r| && r[k].userId == cfgs[j].userId
      {
        if j < |ini| {
          assert ini[j] == cfgs[j];
          var k :| 0 <= k < |antes| && antes[k].userId == ini[j].userId;
          assert r[k] == antes[k];
        } else {
          assert cfgs[j] == c;
          assert r[|antes|] == RelatorioDe(db, c, hoje);
        }
      }
    }
  }

  /**
   * enviar_relatorio_fechamento: the report of every config whose closing day is
   * today and whose user has at least one envelope. Sending is left out.
   */
  method EnviarRelatorioFechamento(db: Database, hoje: Data) returns (relatorios: seq<RelatorioFechamento>)
    ensures relatorios == RelatoriosDe(db, db.configuracoes, hoje)
  {
    var cfgs := db.configuracoes;
    relatorios := [];
    var i := 0;
    while i < |cfgs|
      invariant 0 <= i <= |cfgs|
      invariant relatorios == RelatoriosDe(db, cfgs[..i], hoje)
    {
      assert cfgs[..i + 1][..i] == cfgs[..i];
      var c := cfgs[i];
      if c.diaFechamento.Some? && hoje.dia == c.diaFechamento.value {
        var rel := db.GetRelatorioMensal(c.userId, hoje);
        if rel.caixinhas != [] {
          var linhas := MontarLinhas(rel.caixinhas);
          var d := c.diaFechamento.value;
          var perc := PercTotal(rel.totalGasto, rel.totalLimite);
          assert linhas == seq(|rel.caixinhas|, k requires 0 <= k < |rel.caixinhas| => LinhaDe(rel.caixinhas[k]));
          relatorios := relatorios + [RelatorioFechamento(c.userId, d, linhas, rel.totalGasto, rel.totalLimite,
                                                           rel.totalDisponivel, perc, rel.numTransacoes, DiaReset(d))];
        }
      }
      i := i + 1;
    }
    assert cfgs[..i] == cfgs;
  }
}
