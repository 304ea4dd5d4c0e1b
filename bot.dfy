/**
 * The decision logic of the Telegram front end bot_v2.py: access control, the alert band
 * shown after a purchase, the argument checks of /criar and /fechamento, the rule that a
 * generic payee is never looked up, the inline-button callback format and the life cycle
 * of the pending-confirmation dictionary. Every handler is a transition on the tables
 * (Tabelas) plus the pending dictionary; the Bot class runs the same steps against a
 * Database and is proved to produce exactly that transition.
 */
module Bot {
  import opened Comum
  import opened Texto
  import opened Calendario
  import opened Banco
  import Alertas
  import Agendador
  import Extracao

  // ---------------------------------------------------------------- access control

  /** The stripped entries of the comma-separated ALLOWED_USER_ID setting. */
  function IdsPermitidos(lista: string): seq<string> {
    var ps := Split(lista, ',');
    seq(|ps|, i requires 0 <= i < |ps| => Strip(ps[i]))
  }

  /** is_authorized: an unset or empty setting lets everyone in, otherwise str(user_id) must be listed. */
  predicate Autorizado(permitidos: Option<string>, userId: int) {
    permitidos.None? || permitidos.value == "" || IntParaTexto(userId) in IdsPermitidos(permitidos.value)
  }

  lemma AcessoLivre(userId: int)
    ensures Autorizado(None, userId) && Autorizado(Some(""), userId)
  {
  }

  /**
   * A setting made of comma-separated entries, each of which strips to the decimal text of
   * one id (so " 12 ,34" lists 12 and 34), admits exactly the listed ids.
   */
  lemma AutorizadoPorLista(entradas: seq<string>, ids: seq<int>, userId: int)
    requires |entradas| == |ids| >= 1
    requires forall i :: 0 <= i < |entradas| ==> ',' !in entradas[i] && Strip(entradas[i]) == IntParaTexto(ids[i])
    ensures Autorizado(Some(Join(',', entradas)), userId) <==> userId in ids
  {
    ListaDeIds(entradas, ids);
    var permitidos := IdsPermitidos(Join(',', entradas));
    if IntParaTexto(userId) in permitidos {
      var i :| 0 <= i < |permitidos| && permitidos[i] == IntParaTexto(userId);
      IntParaTextoInjetiva(ids[i], userId);
    }
    if userId in ids {
      var i :| 0 <= i < |ids| && ids[i] == userId;
      assert permitidos[i] == IntParaTexto(userId);
    }
  }

  lemma ListaDeIds(entradas: seq<string>, ids: seq<int>)
    requires |entradas| == |ids| >= 1
    requires forall i :: 0 <= i < |entradas| ==> ',' !in entradas[i] && Strip(entradas[i]) == IntParaTexto(ids[i])
    ensures Join(',', entradas) != ""
    ensures |IdsPermitidos(Join(',', entradas))| == |ids|
    ensures forall i :: 0 <= i < |ids| ==> IdsPermitidos(Join(',', entradas))[i] == IntParaTexto(ids[i])
  {
    SplitJoin(entradas, ',');
    assert entradas[0] != [];
    if |entradas| > 1 {
      assert Join(',', entradas) == entradas[0] + [','] + Join(',', entradas[1..]);
    }
  }

  // ---------------------------------------------------------------- alert band after a purchase

  /** The six messages of get_alerta_gasto, from over the limit down to under control. */
  datatype FaixaGasto = LimiteUltrapassado | Critico | Oitenta | Setenta | Metade | SobControle

  function AlertaGasto(percentual: real): (f: FaixaGasto)
    ensures f == LimiteUltrapassado <==> percentual >= 100.0
    ensures f == Critico <==> 90.0 <= percentual < 100.0
    ensures f == Oitenta <==> 80.0 <= percentual < 90.0
    ensures f == Setenta <==> 70.0 <= percentual < 80.0
    ensures f == Metade <==> 50.0 <= percentual < 70.0
    ensures f == SobControle <==> percentual < 50.0
  {
    if percentual >= 100.0 then LimiteUltrapassado
    else if percentual >= 90.0 then Critico
    else if percentual >= 80.0 then Oitenta
    else if percentual >= 70.0 then Setenta
    else if percentual >= 50.0 then Metade
    else SobControle
  }

  /** The six bands refine the four alert levels of alertas.py. */
  lemma AlertaGastoRefinaNivel(percentual: real)
    ensures AlertaGasto(percentual) == LimiteUltrapassado <==> Alertas.NivelPorPercentual(percentual) == Alertas.Estourado
    ensures AlertaGasto(percentual) in {Critico, Oitenta} <==> Alertas.NivelPorPercentual(percentual) == Alertas.Alerta
    ensures AlertaGasto(percentual) in {Setenta, Metade} <==> Alertas.NivelPorPercentual(percentual) == Alertas.Atencao
    ensures AlertaGasto(percentual) == SobControle <==> Alertas.NivelPorPercentual(percentual) == Alertas.NivelOk
  {
  }

  // ---------------------------------------------------------------- /criar and /fechamento

  datatype ErroCriar = CriarNaoAutorizado | UsoIncorreto | LimiteInvalido | LimiteNaoPositivo

  /** /criar nome... limite: all words but the last are the name, the last must be a positive number. */
  function ValidarCriar(args: seq<string>): (r: Result<(string, real), ErroCriar>)
    ensures r != Err(CriarNaoAutorizado)
    ensures r == Err(UsoIncorreto) <==> |args| < 2
    ensures r == Err(LimiteInvalido) <==> |args| >= 2 && ParseFloat(args[|args| - 1]).None?
    ensures r == Err(LimiteNaoPositivo) <==> |args| >= 2 && ParseFloat(args[|args| - 1]).Some? && ParseFloat(args[|args| - 1]).value <= 0.0
    ensures r.Ok? ==> r.value.1 > 0.0 && Some(r.value.1) == ParseFloat(args[|args| - 1])
  {
    if |args| < 2 then Err(UsoIncorreto)
    else match ParseFloat(args[|args| - 1])
      case None => Err(LimiteInvalido)
      case Some(limite) => if limite <= 0.0 then Err(LimiteNaoPositivo) else Ok((Join(' ', args[..|args| - 1]), limite))
  }

  /** A multi-word name followed by an integer limit: accepted with the words joined iff the limit is positive. */
  lemma CriarNomeELimite(palavras: seq<string>, limite: int)
    requires |palavras| >= 1
    ensures ValidarCriar(palavras + [IntParaTexto(limite)]) ==
            if limite > 0 then Ok((Join(' ', palavras), limite as real)) else Err(LimiteNaoPositivo)
  {
    var args := palavras + [IntParaTexto(limite)];
    ParseFloatInteiro(limite);
    assert args[..|args| - 1] == palavras;
  }

  datatype ErroDia = DiaInvalido | DiaForaDoIntervalo

  /** /fechamento dia: int(dia) must succeed and lie in 1..28. */
  function ValidarDia(arg: string): (r: Result<int, ErroDia>)
    ensures r.Ok? ==> 1 <= r.value <= 28 && ParseInt(arg) == Some(r.value)
    ensures r == Err(DiaInvalido) <==> ParseInt(arg).None?
    ensures r == Err(DiaForaDoIntervalo) <==> ParseInt(arg).Some? && !(1 <= ParseInt(arg).value <= 28)
  {
    match ParseInt(arg)
    case None => Err(DiaInvalido)
    case Some(d) => if d < 1 || d > 28 then Err(DiaForaDoIntervalo) else Ok(d)
  }

  /** Every day written in decimal is accepted iff it lies in 1..28. */
  lemma ValidarDiaTexto(dia: int)
    ensures ValidarDia(IntParaTexto(dia)) == if 1 <= dia <= 28 then Ok(dia) else Err(DiaForaDoIntervalo)
  {
    ParseIntIntParaTexto(dia);
  }

  datatype RespostaFechamento =
    | FechamentoNaoAutorizado
    | DiaConfigurado(configurado: Option<int>)
    | DiaDefinido(dia: int, diaReset: int)
    | FechamentoRecusado(erro: ErroDia)

  // ---------------------------------------------------------------- generic payees

  datatype Canal = CanalImagem | CanalAudio | CanalTexto

  const Genericos: seq<string> := ["NÃO IDENTIFICADO", "NÃO ESPECIFICADO"]

  /**
   * Whether the handler of a channel looks the payee up in payee memory: the photo handler
   * compares the upper-cased name with both generic names, the text handler compares its
   * (already upper-cased) name with both, the voice handler only with "NÃO ESPECIFICADO".
   */
  predicate ConsultaMemoria(canal: Canal, nome: string) {
    match canal
    case CanalImagem => Maiusculas(nome) !in Genericos
    case CanalTexto => nome !in Genericos
    case CanalAudio => nome != "NÃO ESPECIFICADO"
  }

  /** What a handler works with after extraction. */
  datatype Extraido = Extraido(valor: Option<real>, estabelecimento: string, data: DataHora,
                               categoriaSugerida: string, descricao: string, metodoPagamento: Option<string>)

  const SemIdentificacao: string := "Não identificado"

  /** The photo handler: a missing or empty payee becomes "Não identificado"; the receipt's date is kept. */
  function DoComprovante(d: Extracao.DadosComprovante): (e: Extraido)
    ensures e.estabelecimento != []
    ensures d.estabelecimento.Some? && d.estabelecimento.value != "" ==> e.estabelecimento == d.estabelecimento.value
    ensures d.estabelecimento.None? || d.estabelecimento.value == "" ==> e.estabelecimento == SemIdentificacao
    ensures e.valor == d.valor && e.data == d.data && e.categoriaSugerida == d.categoriaSugerida
    ensures e.descricao == "" && e.metodoPagamento.None?
  {
    Extraido(d.valor,
             if d.estabelecimento.Some? && d.estabelecimento.value != "" then d.estabelecimento.value else SemIdentificacao,
             d.data, d.categoriaSugerida, "", None)
  }

  /** The voice and text handlers: the payee is upper-cased again and the date is the moment of the message. */
  function DoAudio(d: Extracao.DadosAudio, agora: DataHora): (e: Extraido)
    ensures e.estabelecimento == Maiusculas(d.estabelecimento)
    ensures Maiusculas(e.estabelecimento) == e.estabelecimento
    ensures e.valor == d.valor && e.data == agora && e.categoriaSugerida == d.categoriaSugerida
    ensures e.descricao == d.descricao && e.metodoPagamento == d.metodoPagamento
  {
    MaiusculasIdempotente(d.estabelecimento);
    Extraido(d.valor, Maiusculas(d.estabelecimento), agora, d.categoriaSugerida, d.descricao, d.metodoPagamento)
  }

  lemma MaiusculasGenericos()
    ensures Maiusculas(SemIdentificacao) == Genericos[0]
    ensures Maiusculas(Extracao.EstabelecimentoPadrao) == Genericos[1]
  {
    assert Maiusculas(SemIdentificacao) == Genericos[0] by {
      var a, b := Maiusculas(SemIdentificacao), Genericos[0];
      assert |a| == |b|;
      forall i | 0 <= i < |a| ensures a[i] == b[i] {
        assert a[i] == MaiusculaChar(SemIdentificacao[i]);
      }
    }
    assert Maiusculas(Extracao.EstabelecimentoPadrao) == Genericos[1] by {
      var a, b := Maiusculas(Extracao.EstabelecimentoPadrao), Genericos[1];
      assert |a| == |b|;
      forall i | 0 <= i < |a| ensures a[i] == b[i] {
        assert a[i] == MaiusculaChar(Extracao.EstabelecimentoPadrao[i]);
      }
    }
  }

  /**
   * The fallback payees of each path are never looked up: a receipt without a payee, and a
   * voice or text message whose payee stayed "Não especificado".
   */
  lemma FallbacksNuncaConsultados(dc: Extracao.DadosComprovante, da: Extracao.DadosAudio, agora: DataHora, canal: Canal)
    requires canal != CanalImagem
    ensures dc.estabelecimento.None? ==> !ConsultaMemoria(CanalImagem, DoComprovante(dc).estabelecimento)
    ensures da.estabelecimento == Extracao.EstabelecimentoPadrao ==> !ConsultaMemoria(canal, DoAudio(da, agora).estabelecimento)
  {
    MaiusculasGenericos();
  }

  /** The voice handler does look "NÃO IDENTIFICADO" up: only the other generic name is excluded there. */
  lemma AudioConsultaNaoIdentificado()
    ensures ConsultaMemoria(CanalAudio, Genericos[0])
    ensures !ConsultaMemoria(CanalImagem, Genericos[0]) && !ConsultaMemoria(CanalTexto, Genericos[0])
  {
    MaiusculasGenericos();
    MaiusculasIdempotente(SemIdentificacao);
  }

  // ---------------------------------------------------------------- callback data

  datatype Callback =
    | Confirmar(chave: string, caixinhaId: int)
    | Mudar(chave: string)
    | Selecionar(chave: string, caixinhaId: int)
    | Nova(chave: string)

  /** The callback_data strings of the inline buttons. */
  function Codificar(c: Callback): string {
    match c
    case Confirmar(k, id) => "confirm_" + k + "_" + IntParaTexto(id)
    case Mudar(k) => "change_" + k
    case Selecionar(k, id) => "sel_" + k + "_" + IntParaTexto(id)
    case Nova(k) => "new_" + k
  }

  /**
   * callback_handler's parsing: the prefix is tested in order and removed with replace();
   * confirm_ splits the rest on every "_" and reads the first two pieces, sel_ splits once
   * from the right. A failing int() or a missing piece is the None case.
   */
  function ParseCallback(s: string): Option<Callback> {
    if ComecaCom(s, "confirm_") then LerConfirmar(Substituir(s, "confirm_", ""))
    else if ComecaCom(s, "change_") then Some(Mudar(Substituir(s, "change_", "")))
    else if ComecaCom(s, "sel_") then LerSelecionar(Substituir(s, "sel_", ""))
    else if ComecaCom(s, "new_") then Some(Nova(Substituir(s, "new_", "")))
    else None
  }

  function LerConfirmar(resto: string): Option<Callback> {
    var ps := Split(resto, '_');
    if |ps| >= 2 && ParseInt(ps[1]).Some? then Some(Confirmar(ps[0], ParseInt(ps[1]).value)) else None
  }

  function LerSelecionar(resto: string): Option<Callback> {
    var ps := RSplitUma(resto, '_');
    if |ps| == 2 && ParseInt(ps[1]).Some? then Some(Selecionar(ps[0], ParseInt(ps[1]).value)) else None
  }

  predicate EhHex(c: char) {
    '0' <= c <= '9' || 'a' <= c <= 'f'
  }

  /** str(uuid.uuid4())[:8]: eight lower-case hexadecimal digits. */
  predicate IdTransacao(k: string) {
    |k| == 8 && forall i :: 0 <= i < |k| ==> EhHex(k[i])
  }

  lemma ForaDoId(k: string, c: char)
    requires IdTransacao(k) && !EhHex(c)
    ensures c !in k
  {
    assert forall i :: 0 <= i < |k| ==> k[i] != c;
  }

  lemma ForaDoNumero(n: int, c: char)
    requires !EhDigito(c) && c != '-'
    ensures c !in IntParaTexto(n)
  {
    var t := IntParaTexto(n);
    assert forall i :: 0 <= i < |t| ==> t[i] != c;
  }

  /** rsplit(sep, 1) of a + sep + b, when b holds no separator. */
  lemma {:induction false} RSplitUmaConcat(a: string, sep: char, b: string)
    requires sep !in b
    ensures RSplitUma(a + [sep] + b, sep) == [a, b]
    decreases |b|
  {
    var s := a + [sep] + b;
    assert s[|a|] == sep;
    if b == [] {
      assert s[..|s| - 1] == a;
    } else {
      var ini := b[..|b| - 1];
      assert s[..|s| - 1] == a + [sep] + ini;
      assert b == ini + [b[|b| - 1]];
      RSplitUmaConcat(a, sep, ini);
    }
  }

  /** The key and the id read back as the two pieces of key + "_" + id. */
  lemma DoisPedacos(k: string, n: string)
    requires '_' !in k && '_' !in n
    ensures Split(k + "_" + n, '_') == [k, n]
  {
    var xs := [k, n];
    assert Join('_', xs[1..]) == n;
    assert Join('_', xs) == k + "_" + n;
    SplitJoin(xs, '_');
  }

  lemma PrefixoRemovido(p: string, t: string, j: nat)
    requires j < |p| && p[j] !in t
    ensures ComecaCom(p + t, p) && Substituir(p + t, p, "") == t
  {
    assert (p + t)[..|p|] == p;
    SubstituirPrefixo(p, t, "");
    SubstituirSemOcorrencia(t, p, "", j);
  }

  lemma OutroPrefixo(p: string, t: string, q: string, j: nat)
    requires j < |p| && j < |q| && p[j] != q[j]
    ensures !ComecaCom(p + t, q)
  {
    if |q| <= |p + t| {
      assert (p + t)[..|q|][j] == p[j];
    }
  }

  /** Every button the bot builds for a uuid-prefix key parses back to itself. */
  lemma CallbackIdaVolta(c: Callback)
    requires IdTransacao(c.chave)
    ensures ParseCallback(Codificar(c)) == Some(c)
  {
    match c
    case Confirmar(k, id) => IdaVoltaConfirmar(k, id);
    case Mudar(k) =>
      ForaDoId(k, 'h');
      OutroPrefixo("change_", k, "confirm_", 1);
      PrefixoRemovido("change_", k, 1);
    case Selecionar(k, id) => IdaVoltaSelecionar(k, id);
    case Nova(k) =>
      ForaDoId(k, 'n');
      OutroPrefixo("new_", k, "confirm_", 0);
      OutroPrefixo("new_", k, "change_", 0);
      OutroPrefixo("new_", k, "sel_", 0);
      PrefixoRemovido("new_", k, 0);
  }

  /** A confirm_ button is read by splitting key + "_" + id, whatever the key, as long as "confirm_" cannot recur in it. */
  lemma LerBotaoConfirmar(k: string, id: int)
    requires 'o' !in k
    ensures ParseCallback(Codificar(Confirmar(k, id))) == LerConfirmar(k + "_" + IntParaTexto(id))
  {
    var n := IntParaTexto(id);
    ForaDoNumero(id, 'o');
    var t := k + "_" + n;
    assert 'o' !in t;
    assert Codificar(Confirmar(k, id)) == "confirm_" + t;
    PrefixoRemovido("confirm_", t, 1);
  }

  lemma IdaVoltaConfirmar(k: string, id: int)
    requires '_' !in k && 'o' !in k
    ensures ParseCallback(Codificar(Confirmar(k, id))) == Some(Confirmar(k, id))
  {
    LerBotaoConfirmar(k, id);
    ForaDoNumero(id, '_');
    DoisPedacos(k, IntParaTexto(id));
    ParseIntIntParaTexto(id);
  }

  /** sel_ splits from the right, so any key without an "s" comes back whole, even one holding "_". */
  lemma IdaVoltaSelecionar(k: string, id: int)
    requires 's' !in k
    ensures ParseCallback(Codificar(Selecionar(k, id))) == Some(Selecionar(k, id))
  {
    var n := IntParaTexto(id);
    ForaDoNumero(id, 's');
    ForaDoNumero(id, '_');
    var t := k + "_" + n;
    assert 's' !in t;
    assert Codificar(Selecionar(k, id)) == "sel_" + t;
    OutroPrefixo("sel_", t, "confirm_", 0);
    OutroPrefixo("sel_", t, "change_", 0);
    PrefixoRemovido("sel_", t, 0);
    assert t == k + ['_'] + n;
    RSplitUmaConcat(k, '_', n);
    ParseIntIntParaTexto(id);
  }

  /**
   * Why confirm_ needs a key without "_": the id is read from the second piece, so a key
   * a_b makes b the envelope id.
   */
  lemma SublinhadoNaChave(a: string, b: string, id: int)
    requires '_' !in a && '_' !in b && 'o' !in a && 'o' !in b
    requires ParseInt(b).Some?
    ensures ParseCallback(Codificar(Confirmar(a + "_" + b, id))) == Some(Confirmar(a, ParseInt(b).value))
  {
    assert 'o' !in a + "_" + b;
    LerBotaoConfirmar(a + "_" + b, id);
    ForaDoNumero(id, '_');
    TresPedacos(a, b, IntParaTexto(id));
  }

  lemma TresPedacos(a: string, b: string, n: string)
    requires '_' !in a && '_' !in b && '_' !in n
    ensures Split(a + "_" + b + "_" + n, '_') == [a, b, n]
  {
    var xs := [a, b, n];
    assert Join('_', xs[2..]) == n;
    assert Join('_', xs[1..]) == b + "_" + n;
    assert Join('_', xs) == a + "_" + b + "_" + n;
    SplitJoin(xs, '_');
  }

  // ---------------------------------------------------------------- the pending dictionary

  /** One value of pending_transactions; a photo entry has no description and no payment method. */
  datatype Pendente = Pendente(userId: int, valor: real, estabelecimento: string, data: DataHora,
                               descricao: string, metodoPagamento: Option<string>, canal: Canal,
                               aguardandoCaixinha: bool)

  /** pending_transactions as its items in insertion order. */
  datatype Entrada = Entrada(chave: string, pendente: Pendente)

  predicate ChavesUnicas(ps: seq<Entrada>) {
    forall i, j :: 0 <= i < j < |ps| ==> ps[i].chave != ps[j].chave
  }

  /** pending_transactions.get(k). */
  function Consultar(ps: seq<Entrada>, k: string): (r: Option<Pendente>)
    ensures r.None? <==> forall i :: 0 <= i < |ps| ==> ps[i].chave != k
    ensures r.Some? ==> Entrada(k, r.value) in ps
  {
    if ps == [] then None
    else if ps[0].chave == k then Some(ps[0].pendente)
    else
      var r := Consultar(ps[1..], k);
      assert forall i :: 1 <= i < |ps| ==> ps[i] == ps[1..][i - 1];
      r
  }

  /** With distinct keys the lookup returns the value stored under the key. */
  lemma {:induction false} ConsultarUnico(ps: seq<Entrada>, k: string, p: Pendente)
    requires ChavesUnicas(ps) && Entrada(k, p) in ps
    ensures Consultar(ps, k) == Some(p)
  {
    if ps[0] != Entrada(k, p) {
      var j :| 0 <= j < |ps| && ps[j] == Entrada(k, p);
      assert j > 0;
      assert ps[0].chave != k;
      assert ps[1..][j - 1] == Entrada(k, p);
      ConsultarUnico(ps[1..], k, p);
    }
  }

  /** pending_transactions[k] = p: a present key keeps its place, a new key goes last. */
  function Inserir(ps: seq<Entrada>, k: string, p: Pendente): seq<Entrada> {
    if Consultar(ps, k).Some? then seq(|ps|, i requires 0 <= i < |ps| => if ps[i].chave == k then Entrada(k, p) else ps[i])
    else ps + [Entrada(k, p)]
  }

  lemma InserirEfeito(ps: seq<Entrada>, k: string, p: Pendente, k2: string)
    requires ChavesUnicas(ps)
    ensures ChavesUnicas(Inserir(ps, k, p))
    ensures |Inserir(ps, k, p)| == |ps| + (if Consultar(ps, k).Some? then 0 else 1)
    ensures Consultar(Inserir(ps, k, p), k2) == if k2 == k then Some(p) else Consultar(ps, k2)
  {
    var r := Inserir(ps, k, p);
    assert forall i :: 0 <= i < |ps| ==> r[i].chave == ps[i].chave;
    if Consultar(ps, k).Some? {
      var i :| 0 <= i < |ps| && ps[i] == Entrada(k, Consultar(ps, k).value);
      assert r[i] == Entrada(k, p);
    } else {
      assert r[|ps|] == Entrada(k, p);
    }
    ConsultarUnico(r, k, p);
    if k2 != k {
      match Consultar(ps, k2)
      case None =>
      case Some(v) =>
        var i :| 0 <= i < |ps| && ps[i] == Entrada(k2, v);
        assert r[i] == ps[i];
        ConsultarUnico(r, k2, v);
    }
  }

  /** del pending_transactions[k]. */
  function Remover(ps: seq<Entrada>, k: string): (r: seq<Entrada>)
    ensures forall e :: e in r <==> e in ps && e.chave != k
  {
    if ps == [] then []
    else (if ps[0].chave == k then [] else [ps[0]]) + Remover(ps[1..], k)
  }

  lemma {:induction false} RemoverUnicas(ps: seq<Entrada>, k: string)
    requires ChavesUnicas(ps)
    ensures ChavesUnicas(Remover(ps, k))
  {
    if ps != [] {
      RemoverUnicas(ps[1..], k);
      var resto := Remover(ps[1..], k);
      if ps[0].chave != k {
        forall j | 0 <= j < |resto| ensures resto[j].chave != ps[0].chave {
          assert resto[j] in resto;
          var m :| 0 <= m < |ps[1..]| && ps[1..][m] == resto[j];
          assert ps[m + 1] == resto[j];
        }
        assert Remover(ps, k) == [ps[0]] + resto;
      }
    }
  }

  lemma RemoverEfeito(ps: seq<Entrada>, k: string, k2: string)
    requires ChavesUnicas(ps)
    ensures ChavesUnicas(Remover(ps, k))
    ensures Consultar(Remover(ps, k), k2) == if k2 == k then None else Consultar(ps, k2)
  {
    RemoverUnicas(ps, k);
    var r := Remover(ps, k);
    if k2 == k {
      assert forall i :: 0 <= i < |r| ==> r[i] in r;
    } else {
      match Consultar(ps, k2)
      case None =>
        assert forall i :: 0 <= i < |r| ==> r[i] in r;
        forall i | 0 <= i < |r| ensures r[i].chave != k2 {
          var m :| 0 <= m < |ps| && ps[m] == r[i];
        }
      case Some(v) =>
        ConsultarUnico(r, k2, v);
    }
  }

  /** pending_transactions[k]['awaiting_new_caixinha'] = True. */
  function Marcar(ps: seq<Entrada>, k: string): seq<Entrada> {
    seq(|ps|, i requires 0 <= i < |ps| =>
      if ps[i].chave == k then Entrada(k, ps[i].pendente.(aguardandoCaixinha := true)) else ps[i])
  }

  lemma MarcarEfeito(ps: seq<Entrada>, k: string, k2: string)
    requires ChavesUnicas(ps)
    ensures ChavesUnicas(Marcar(ps, k))
    ensures Consultar(Marcar(ps, k), k2) ==
            if k2 != k then Consultar(ps, k2)
            else match Consultar(ps, k)
              case None => None
              case Some(p) => Some(p.(aguardandoCaixinha := true))
  {
    var r := Marcar(ps, k);
    assert forall i :: 0 <= i < |ps| ==> r[i].chave == ps[i].chave;
    match Consultar(ps, k2)
    case None =>
    case Some(v) =>
      var i :| 0 <= i < |ps| && ps[i] == Entrada(k2, v);
      ConsultarUnico(r, k2, if k2 == k then v.(aguardandoCaixinha := true) else v);
  }

  predicate Aguarda(e: Entrada, u: int) {
    e.pendente.aguardandoCaixinha && e.pendente.userId == u
  }

  /** The position of the first entry of user u waiting for a new envelope. */
  function PrimeiroAguardando(ps: seq<Entrada>, u: int): (r: Option<nat>)
    ensures r.Some? ==> r.value < |ps| && Aguarda(ps[r.value], u) && forall j :: 0 <= j < r.value ==> !Aguarda(ps[j], u)
    ensures r.None? <==> forall j :: 0 <= j < |ps| ==> !Aguarda(ps[j], u)
  {
    if ps == [] then None
    else if Aguarda(ps[0], u) then Some(0)
    else
      assert forall j :: 1 <= j < |ps| ==> ps[j] == ps[1..][j - 1];
      match PrimeiroAguardando(ps[1..], u)
      case None => None
      case Some(j) => Some(j + 1)
  }

  function ChaveAguardando(ps: seq<Entrada>, u: int): Option<string> {
    match PrimeiroAguardando(ps, u)
    case None => None
    case Some(i) => Some(ps[i].chave)
  }

  /** Storing a fresh entry that is not waiting does not change which entry a user's next text completes. */
  lemma AguardandoAposInserir(ps: seq<Entrada>, k: string, p: Pendente, u: int)
    requires ChavesUnicas(ps) && Consultar(ps, k).None? && !p.aguardandoCaixinha
    ensures ChaveAguardando(Inserir(ps, k, p), u) == ChaveAguardando(ps, u)
  {
    var r := Inserir(ps, k, p);
    assert r == ps + [Entrada(k, p)];
    assert forall j :: 0 <= j < |ps| ==> r[j] == ps[j];
    match PrimeiroAguardando(ps, u)
    case None =>
      assert PrimeiroAguardando(r, u).None?;
    case Some(i) =>
      assert PrimeiroAguardando(r, u) == Some(i);
  }

  // ---------------------------------------------------------------- the handlers as transitions

  /** The database tables and the pending dictionary. */
  datatype Tabelas = Tabelas(caixinhas: seq<Caixinha>, transacoes: seq<Transacao>,
                             estabelecimentos: seq<EstabelecimentoConhecido>,
                             configuracoes: seq<ConfiguracaoUsuario>, pendentes: seq<Entrada>)

  function Nomes(cs: seq<Caixinha>): (r: seq<string>)
    ensures |r| == |cs| && forall i :: 0 <= i < |cs| ==> r[i] == cs[i].nome
  {
    seq(|cs|, i requires 0 <= i < |cs| => cs[i].nome)
  }

  /**
   * The envelope proposed for a new payee: the user's envelope named like the suggested
   * category, else the one named by the categoriser's answer, else the user's first one.
   */
  function Sugestao(s: Tabelas, u: int, categoria: string, resposta: Option<string>): (c: Caixinha)
    requires CaixinhasDe(s.caixinhas, u) != []
    ensures c in s.caixinhas && c.userId == u
    ensures CaixinhaChamada(s.caixinhas, u, categoria).Some? ==> c.nome == categoria
    ensures CaixinhaChamada(s.caixinhas, u, categoria).None? &&
            Extracao.CategorizarEstabelecimento(Nomes(CaixinhasDe(s.caixinhas, u)), resposta).Some? ==>
              c.nome == Extracao.CategorizarEstabelecimento(Nomes(CaixinhasDe(s.caixinhas, u)), resposta).value
    ensures CaixinhaChamada(s.caixinhas, u, categoria).None? &&
            Extracao.CategorizarEstabelecimento(Nomes(CaixinhasDe(s.caixinhas, u)), resposta).None? ==>
              c == CaixinhasDe(s.caixinhas, u)[0]
  {
    var minhas := CaixinhasDe(s.caixinhas, u);
    assert minhas[0] in minhas;
    match CaixinhaChamada(s.caixinhas, u, categoria)
    case Some(c) => c
    case None =>
      var cat := Extracao.CategorizarEstabelecimento(Nomes(minhas), resposta);
      if cat.Some? then
        NomeOferecidoExiste(s.caixinhas, u, cat.value);
        CaixinhaChamada(s.caixinhas, u, cat.value).value
      else minhas[0]
  }

  /** A name the categoriser picked from the user's envelope names names one of them. */
  lemma NomeOferecidoExiste(cs: seq<Caixinha>, u: int, nome: string)
    requires nome in Nomes(CaixinhasDe(cs, u))
    ensures CaixinhaChamada(cs, u, nome).Some?
  {
    var minhas := CaixinhasDe(cs, u);
    var i :| 0 <= i < |minhas| && Nomes(minhas)[i] == nome;
    assert minhas[i] in minhas;
  }

  datatype Desfecho =
    | GastoNaoAutorizado
    | SemCaixinhas
    | NaoExtraido
    | FalhaCaixinha
    | RegistradoDireto(t: Transacao)
    | AguardandoConfirmacao(chave: string, sugerida: Caixinha)

  /** `if not dados or not dados['valor']`. */
  predicate Extraiu(d: Option<Extraido>) {
    d.Some? && d.value.valor.Some? && d.value.valor.value != 0.0
  }

  function PendenteDe(userId: int, canal: Canal, d: Extraido): Pendente
    requires d.valor.Some?
  {
    Pendente(userId, d.valor.value, d.estabelecimento, d.data, d.descricao, d.metodoPagamento, canal, false)
  }

  /**
   * The photo, voice and text handlers after extraction. A remembered payee is charged at
   * once to its envelope (a remembered envelope that no longer exists is the exception the
   * handler catches); a new or generic payee is parked under chave with a suggested envelope.
   */
  function RegistrarEm(s: Tabelas, permitidos: Option<string>, userId: int, canal: Canal, dados: Option<Extraido>,
                       resposta: Option<string>, chave: string, agora: DataHora): (Desfecho, Tabelas)
  {
    if !Autorizado(permitidos, userId) then (GastoNaoAutorizado, s)
    else if CaixinhasDe(s.caixinhas, userId) == [] then (SemCaixinhas, s)
    else if !Extraiu(dados) then (NaoExtraido, s)
    else
      var d := dados.value;
      var nome := d.estabelecimento;
      var conhecido := if ConsultaMemoria(canal, nome) then PrimeiroEstabelecimento(s.estabelecimentos, userId, Maiusculas(nome)) else None;
      match conhecido
      case Some(e) =>
        (match IndiceCaixinha(s.caixinhas, e.caixinhaId)
         case None => (FalhaCaixinha, s)
         case Some(i) =>
           var cx := s.caixinhas[i];
           var t := Transacao(ProximoIdTransacao(s.transacoes), userId, cx.id, d.valor.value, nome, Some(cx.nome), d.data, agora);
           (RegistradoDireto(t), s.(caixinhas := Debitar(s.caixinhas, cx.id, d.valor.value), transacoes := s.transacoes + [t])))
      case None =>
        (AguardandoConfirmacao(chave, Sugestao(s, userId, d.categoriaSugerida, resposta)),
         s.(pendentes := Inserir(s.pendentes, chave, PendenteDe(userId, canal, d))))
  }

  /**
   * What a message does: a rejected one changes nothing; a direct charge appends one
   * transaction to the remembered envelope and leaves the pending dictionary alone; a
   * parked one changes only the pending dictionary, under chave, and proposes one of the
   * user's own envelopes.
   */
  lemma RegistrarEfeito(s: Tabelas, permitidos: Option<string>, userId: int, canal: Canal, dados: Option<Extraido>,
                        resposta: Option<string>, chave: string, agora: DataHora)
    requires ChavesUnicas(s.pendentes)
    ensures var (d, s2) := RegistrarEm(s, permitidos, userId, canal, dados, resposta, chave, agora);
            (d.GastoNaoAutorizado? <==> !Autorizado(permitidos, userId)) &&
            (d.GastoNaoAutorizado? || d.SemCaixinhas? || d.NaoExtraido? || d.FalhaCaixinha? ==> s2 == s) &&
            (d.RegistradoDireto? ==>
               Extraiu(dados) && ConsultaMemoria(canal, dados.value.estabelecimento) &&
               s2.transacoes == s.transacoes + [d.t] && d.t.valor == dados.value.valor.value &&
               d.t.userId == userId && d.t.estabelecimento == dados.value.estabelecimento &&
               d.t.dataTransacao == dados.value.data && d.t.criadoEm == agora &&
               d.t.id == ProximoIdTransacao(s.transacoes) &&
               (exists e :: e in s.estabelecimentos && e.userId == userId && e.caixinhaId == d.t.caixinhaId &&
                            e.nomeEstabelecimento == Maiusculas(dados.value.estabelecimento)) &&
               (exists i :: IndiceCaixinha(s.caixinhas, d.t.caixinhaId) == Some(i) && d.t.categoria == Some(s.caixinhas[i].nome)) &&
               s2.caixinhas == Debitar(s.caixinhas, d.t.caixinhaId, d.t.valor)) &&
            (d.RegistradoDireto? ==> s2.pendentes == s.pendentes && s2.estabelecimentos == s.estabelecimentos &&
                                     s2.configuracoes == s.configuracoes) &&
            (d.AguardandoConfirmacao? ==>
               Extraiu(dados) && d.chave == chave &&
               s2 == s.(pendentes := s2.pendentes) &&
               Consultar(s2.pendentes, chave) == Some(PendenteDe(userId, canal, dados.value)) &&
               (forall k2 :: k2 != chave ==> Consultar(s2.pendentes, k2) == Consultar(s.pendentes, k2)) &&
               ChavesUnicas(s2.pendentes) &&
               d.sugerida in s.caixinhas && d.sugerida.userId == userId)
  {
    var (d, s2) := RegistrarEm(s, permitidos, userId, canal, dados, resposta, chave, agora);
    if d.AguardandoConfirmacao? {
      InserirEfeito(s.pendentes, chave, PendenteDe(userId, canal, dados.value), chave);
      forall k2 | k2 != chave
        ensures Consultar(s2.pendentes, k2) == Consultar(s.pendentes, k2)
      {
        InserirEfeito(s.pendentes, chave, PendenteDe(userId, canal, dados.value), k2);
      }
    }
  }

  /**
   * A payee whose upper-cased name is generic is never charged straight away by the photo
   * and text handlers: it always goes through confirmation (or is rejected earlier).
   */
  lemma GenericoSempreConfirma(s: Tabelas, permitidos: Option<string>, userId: int, canal: Canal, dados: Option<Extraido>,
                               resposta: Option<string>, chave: string, agora: DataHora)
    requires canal == CanalImagem || canal == CanalTexto
    requires dados.Some? && Maiusculas(dados.value.estabelecimento) in Genericos
    requires canal == CanalTexto ==> Maiusculas(dados.value.estabelecimento) == dados.value.estabelecimento
    ensures var d := RegistrarEm(s, permitidos, userId, canal, dados, resposta, chave, agora).0;
            !d.RegistradoDireto? && !d.FalhaCaixinha?
  {
  }

  datatype RespostaCallback =
    | Invalido
    | Expirada
    | CaixinhaInexistente
    | Registrada(t: Transacao)
    | Opcoes(caixinhas: seq<Caixinha>)
    | AguardandoNome

  /**
   * The confirm_ and sel_ buttons: the pending values are charged to the chosen envelope
   * (any user's: query.get does not check the owner), the payee is remembered for the
   * user who pressed the button, and the key is deleted.
   */
  function ConfirmarEm(s: Tabelas, clicante: int, k: string, caixinhaId: int, agora: DataHora): (RespostaCallback, Tabelas) {
    match Consultar(s.pendentes, k)
    case None => (Expirada, s)
    case Some(td) =>
      match IndiceCaixinha(s.caixinhas, caixinhaId)
      case None => (CaixinhaInexistente, s)
      case Some(i) =>
        var cx := s.caixinhas[i];
        var t := Transacao(ProximoIdTransacao(s.transacoes), td.userId, cx.id, td.valor, td.estabelecimento,
                           Some(cx.nome), td.data, agora);
        var e := EstabelecimentoConhecido(ProximoIdEstabelecimento(s.estabelecimentos), clicante,
                                          Maiusculas(td.estabelecimento), cx.id);
        (Registrada(t), s.(caixinhas := Debitar(s.caixinhas, cx.id, td.valor), transacoes := s.transacoes + [t],
                           estabelecimentos := s.estabelecimentos + [e], pendentes := Remover(s.pendentes, k)))
  }

  /**
   * Confirming a known key adds exactly one transaction carrying the pending values, stores
   * one payee-memory row, removes that key and no other; an unknown key or envelope changes nothing.
   */
  lemma ConfirmarEfeito(s: Tabelas, clicante: int, k: string, caixinhaId: int, agora: DataHora, k2: string)
    requires ChavesUnicas(s.pendentes)
    ensures var (r, s2) := ConfirmarEm(s, clicante, k, caixinhaId, agora);
            (r == Expirada <==> Consultar(s.pendentes, k).None?) &&
            (r.Registrada? || r == Expirada || r == CaixinhaInexistente) &&
            (!r.Registrada? ==> s2 == s) &&
            (r.Registrada? ==>
               var td := Consultar(s.pendentes, k).value;
               s2.transacoes == s.transacoes + [r.t] &&
               r.t.userId == td.userId && r.t.caixinhaId == caixinhaId && r.t.valor == td.valor &&
               r.t.estabelecimento == td.estabelecimento && r.t.dataTransacao == td.data &&
               |s2.estabelecimentos| == |s.estabelecimentos| + 1 &&
               s2.estabelecimentos[..|s.estabelecimentos|] == s.estabelecimentos &&
               s2.estabelecimentos[|s.estabelecimentos|].userId == clicante &&
               s2.estabelecimentos[|s.estabelecimentos|].caixinhaId == caixinhaId &&
               s2.estabelecimentos[|s.estabelecimentos|].nomeEstabelecimento == Maiusculas(td.estabelecimento) &&
               s2.caixinhas == Debitar(s.caixinhas, caixinhaId, td.valor) &&
               (exists i :: IndiceCaixinha(s.caixinhas, caixinhaId) == Some(i) && r.t.categoria == Some(s.caixinhas[i].nome)) &&
               s2.configuracoes == s.configuracoes &&
               ChavesUnicas(s2.pendentes) &&
               Consultar(s2.pendentes, k).None? &&
               (k2 != k ==> Consultar(s2.pendentes, k2) == Consultar(s.pendentes, k2)))
  {
    var (r, s2) := ConfirmarEm(s, clicante, k, caixinhaId, agora);
    if r.Registrada? {
      RemoverEfeito(s.pendentes, k, k);
      RemoverEfeito(s.pendentes, k, k2);
      assert (s.estabelecimentos + [s2.estabelecimentos[|s.estabelecimentos|]])[..|s.estabelecimentos|] == s.estabelecimentos;
    }
  }

  /** A key can be confirmed once: a second press of any confirming button finds it expired. */
  lemma ConfirmarUmaVez(s: Tabelas, clicante: int, k: string, id1: int, id2: int, agora: DataHora, depois: DataHora)
    requires ChavesUnicas(s.pendentes)
    requires ConfirmarEm(s, clicante, k, id1, agora).0.Registrada?
    ensures ConfirmarEm(ConfirmarEm(s, clicante, k, id1, agora).1, clicante, k, id2, depois).0 == Expirada
  {
    RemoverEfeito(s.pendentes, k, k);
  }

  /** callback_handler. */
  function CallbackEm(s: Tabelas, clicante: int, dados: string, agora: DataHora): (RespostaCallback, Tabelas) {
    match ParseCallback(dados)
    case None => (Invalido, s)
    case Some(Confirmar(k, id)) => ConfirmarEm(s, clicante, k, id, agora)
    case Some(Selecionar(k, id)) => ConfirmarEm(s, clicante, k, id, agora)
    case Some(Mudar(k)) =>
      if Consultar(s.pendentes, k).None? then (Expirada, s) else (Opcoes(CaixinhasDe(s.caixinhas, clicante)), s)
    case Some(Nova(k)) =>
      if Consultar(s.pendentes, k).None? then (Expirada, s) else (AguardandoNome, s.(pendentes := Marcar(s.pendentes, k)))
  }

  /** The change_ and new_ buttons never touch the tables; new_ only flags its own key. */
  lemma MudarENovaEfeito(s: Tabelas, clicante: int, k: string, agora: DataHora, k2: string)
    requires ChavesUnicas(s.pendentes) && IdTransacao(k)
    ensures CallbackEm(s, clicante, Codificar(Mudar(k)), agora).1 == s
    ensures var (r, s2) := CallbackEm(s, clicante, Codificar(Nova(k)), agora);
            s2 == s.(pendentes := s2.pendentes) && ChavesUnicas(s2.pendentes) &&
            (r == Expirada <==> Consultar(s.pendentes, k).None?) &&
            (r == AguardandoNome ==> Consultar(s2.pendentes, k).Some? && Consultar(s2.pendentes, k).value.aguardandoCaixinha) &&
            (k2 != k ==> Consultar(s2.pendentes, k2) == Consultar(s.pendentes, k2))
  {
    CallbackIdaVolta(Mudar(k));
    CallbackIdaVolta(Nova(k));
    MarcarEfeito(s.pendentes, k, k);
    MarcarEfeito(s.pendentes, k, k2);
  }

  /**
   * The whole life cycle: a parked purchase confirmed with the suggested envelope becomes one
   * transaction of the parked value and payee on that envelope, and then its key is gone.
   */
  lemma CicloDeConfirmacao(s: Tabelas, permitidos: Option<string>, userId: int, canal: Canal, dados: Option<Extraido>,
                           resposta: Option<string>, chave: string, agora: DataHora, clicante: int, depois: DataHora)
    requires ChavesUnicas(s.pendentes) && IdTransacao(chave)
    requires RegistrarEm(s, permitidos, userId, canal, dados, resposta, chave, agora).0.AguardandoConfirmacao?
    ensures var (d, s1) := RegistrarEm(s, permitidos, userId, canal, dados, resposta, chave, agora);
            var (r, s2) := CallbackEm(s1, clicante, Codificar(Confirmar(chave, d.sugerida.id)), depois);
            r.Registrada? && r.t.caixinhaId == d.sugerida.id && r.t.userId == userId &&
            r.t.valor == dados.value.valor.value && r.t.estabelecimento == dados.value.estabelecimento &&
            s2.transacoes == s.transacoes + [r.t] && Consultar(s2.pendentes, chave).None?
  {
    var (d, s1) := RegistrarEm(s, permitidos, userId, canal, dados, resposta, chave, agora);
    RegistrarEfeito(s, permitidos, userId, canal, dados, resposta, chave, agora);
    CallbackIdaVolta(Confirmar(chave, d.sugerida.id));
    var i :| 0 <= i < |s1.caixinhas| && s1.caixinhas[i] == d.sugerida;
    assert IndiceCaixinha(s1.caixinhas, d.sugerida.id).Some?;
    ConfirmarEfeito(s1, clicante, chave, d.sugerida.id, depois, chave);
  }

  datatype RespostaInline = FormatoInline | LimiteInline | CaixinhaCriada(c: Caixinha, t: Transacao)

  /** float(limite_str.replace(',', '.')). */
  function LimiteInformado(s: string): Option<real> {
    ParseFloat(Substituir(s, ",", "."))
  }

  /**
   * processar_criar_caixinha_inline on the stripped text: "nome limite" split at the last
   * white space; the envelope is created with whatever number was given, then the parked
   * purchase is charged to it, remembered and deleted.
   */
  function CriarInlineEm(s: Tabelas, userId: int, k: string, texto: string, agora: DataHora): (RespostaInline, Tabelas)
    requires Consultar(s.pendentes, k).Some?
  {
    var partes := RSplitEspaco(texto);
    if |partes| != 2 then (FormatoInline, s)
    else match LimiteInformado(partes[1])
      case None => (LimiteInline, s)
      case Some(limite) =>
        var c := Caixinha(ProximoIdCaixinha(s.caixinhas), userId, partes[0], limite, 0.0, agora);
        var td := Consultar(s.pendentes, k).value;
        var t := Transacao(ProximoIdTransacao(s.transacoes), td.userId, c.id, td.valor, td.estabelecimento,
                           Some(c.nome), td.data, agora);
        var e := EstabelecimentoConhecido(ProximoIdEstabelecimento(s.estabelecimentos), userId,
                                          Maiusculas(td.estabelecimento), c.id);
        (CaixinhaCriada(c, t), s.(caixinhas := Debitar(s.caixinhas + [c], c.id, td.valor), transacoes := s.transacoes + [t],
                                  estabelecimentos := s.estabelecimentos + [e], pendentes := Remover(s.pendentes, k)))
  }

  /**
   * "nome limite" with an integer limit creates the envelope with that name and limit, even
   * a zero or negative one, which /criar would refuse; the new envelope holds exactly the
   * parked value and the key is gone.
   */
  lemma CriarInlineEfeito(s: Tabelas, userId: int, k: string, nome: string, limite: int, agora: DataHora)
    requires ChavesUnicas(s.pendentes) && IdsUnicos(s.caixinhas) && Consultar(s.pendentes, k).Some?
    requires nome != [] && !EhEspaco(nome[|nome| - 1])
    ensures var (r, s2) := CriarInlineEm(s, userId, k, nome + " " + IntParaTexto(limite), agora);
            r.CaixinhaCriada? && r.c.nome == nome && r.c.limite == limite as real && r.c.userId == userId &&
            |s2.caixinhas| == |s.caixinhas| + 1 &&
            s2.caixinhas[|s.caixinhas|].gastoAtual == Consultar(s.pendentes, k).value.valor &&
            r.t.caixinhaId == r.c.id && s2.transacoes == s.transacoes + [r.t] &&
            Consultar(s2.pendentes, k).None? && ChavesUnicas(s2.pendentes)
  {
    var n := IntParaTexto(limite);
    ForaDoNumero(limite, ',');
    forall i | 0 <= i < |n| ensures !EhEspaco(n[i]) {
      assert EhDigito(n[i]) || n[i] == '-';
    }
    RSplitEspacoNomePalavra(nome, n);
    SubstituirSemOcorrencia(n, ",", ".", 0);
    ParseFloatInteiro(limite);
    var c := Caixinha(ProximoIdCaixinha(s.caixinhas), userId, nome, limite as real, 0.0, agora);
    var cs := s.caixinhas + [c];
    assert ProximoIdCaixinha(s.caixinhas) > MaiorId(s.caixinhas, (x: Caixinha) => x.id);
    assert forall i :: 0 <= i < |s.caixinhas| ==> cs[i].id != c.id;
    assert Debitar(cs, c.id, Consultar(s.pendentes, k).value.valor)[|s.caixinhas|] == Debitada(c, c.id, Consultar(s.pendentes, k).value.valor);
    RemoverEfeito(s.pendentes, k, k);
  }

  datatype RespostaTexto = TextoIgnorado | Inline(inline: RespostaInline) | Gasto(desfecho: Desfecho)

  /**
   * processar_texto: after the access check the stripped text completes the user's first
   * waiting entry, if any; otherwise it is a purchase described in free text, whose
   * extraction (audio_processor.processar_texto) is passed in as extraido.
   */
  function ProcessarTextoEm(s: Tabelas, permitidos: Option<string>, userId: int, texto: string,
                            extraido: Option<Extracao.DadosAudio>, resposta: Option<string>,
                            chave: string, agora: DataHora): (RespostaTexto, Tabelas)
  {
    if !Autorizado(permitidos, userId) then (TextoIgnorado, s)
    else match PrimeiroAguardando(s.pendentes, userId)
      case Some(i) =>
        var (r, s2) := CriarInlineEm(s, userId, s.pendentes[i].chave, Strip(texto), agora);
        (Inline(r), s2)
      case None =>
        var dados := if extraido.Some? then Some(DoAudio(extraido.value, agora)) else None;
        var (d, s2) := RegistrarEm(s, permitidos, userId, CanalTexto, dados, resposta, chave, agora);
        (Gasto(d), s2)
  }

  /** A user with a waiting entry never has the text read as a purchase, and one without never creates an envelope inline. */
  lemma TextoEscolheCaminho(s: Tabelas, permitidos: Option<string>, userId: int, texto: string,
                            extraido: Option<Extracao.DadosAudio>, resposta: Option<string>, chave: string, agora: DataHora)
    requires Autorizado(permitidos, userId)
    ensures var r := ProcessarTextoEm(s, permitidos, userId, texto, extraido, resposta, chave, agora).0;
            r.Inline? <==> exists i :: 0 <= i < |s.pendentes| && Aguarda(s.pendentes[i], userId)
  {
  }

  // ---------------------------------------------------------------- the bot

  class Bot {
    const permitidos: Option<string>
    const db: Database
    var pendentes: seq<Entrada>

    ghost predicate Valid()
      reads this, db
    {
      db.Valid() && ChavesUnicas(pendentes)
    }

    ghost function Estado(): Tabelas
      reads this, db
    {
      Tabelas(db.caixinhas, db.transacoes, db.estabelecimentos, db.configuracoes, pendentes)
    }

    constructor(permitidos: Option<string>, db: Database)
      requires db.Valid()
      ensures Valid() && this.permitidos == permitidos && this.db == db && pendentes == []
    {
      this.permitidos := permitidos;
      this.db := db;
      pendentes := [];
    }

    /** /criar: the checks run before any envelope is created. */
    method Criar(userId: int, args: seq<string>, agora: DataHora) returns (r: Result<Caixinha, ErroCriar>)
      requires Valid()
      modifies db
      ensures Valid()
      ensures r == Err(CriarNaoAutorizado) <==> !Autorizado(permitidos, userId)
      ensures Autorizado(permitidos, userId) ==> (r.Err? <==> ValidarCriar(args).Err?) && (r.Err? ==> r.error == ValidarCriar(args).error)
      ensures r.Err? ==> Estado() == old(Estado())
      ensures r.Ok? ==> r.value.limite > 0.0 && r.value.userId == userId && r.value.gastoAtual == 0.0 &&
                        (r.value.nome, r.value.limite) == ValidarCriar(args).value &&
                        Estado() == old(Estado()).(caixinhas := old(db.caixinhas) + [r.value])
    {
      if !Autorizado(permitidos, userId) {
        return Err(CriarNaoAutorizado);
      }
      var v := ValidarCriar(args);
      if v.Err? {
        return Err(v.error);
      }
      var c := db.CriarCaixinha(userId, v.value.0, v.value.1, agora);
      return Ok(c);
    }

    /** /fechamento: no argument shows the configured day; otherwise the day must be 1..28 before it is stored. */
    method Fechamento(userId: int, args: seq<string>) returns (r: RespostaFechamento)
      requires Valid()
      modifies db
      ensures Valid()
      ensures r == FechamentoNaoAutorizado <==> !Autorizado(permitidos, userId)
      ensures !r.DiaDefinido? ==> Estado() == old(Estado())
      ensures r.DiaConfigurado? ==> args == [] && r.configurado == old(db.ObterDiaFechamento(userId))
      ensures r.FechamentoRecusado? ==> args != [] && ValidarDia(args[0]) == Err(r.erro)
      ensures r.DiaDefinido? ==> args != [] && ValidarDia(args[0]) == Ok(r.dia) && 1 <= r.dia <= 28 &&
                                 r.diaReset == Agendador.DiaReset(r.dia) &&
                                 db.ObterDiaFechamento(userId) == Some(r.dia) &&
                                 db.caixinhas == old(db.caixinhas) && db.transacoes == old(db.transacoes) &&
                                 db.estabelecimentos == old(db.estabelecimentos) && pendentes == old(pendentes)
      ensures forall v :: v != userId ==> db.ObterDiaFechamento(v) == old(db.ObterDiaFechamento(v))
      ensures Autorizado(permitidos, userId) && args != [] && ValidarDia(args[0]).Ok? ==> r.DiaDefinido?
    {
      if !Autorizado(permitidos, userId) {
        return FechamentoNaoAutorizado;
      }
      if |args| == 0 {
        return DiaConfigurado(db.ObterDiaFechamento(userId));
      }
      var v := ValidarDia(args[0]);
      if v.Err? {
        return FechamentoRecusado(v.error);
      }
      db.DefinirDiaFechamento(userId, v.value);
      return DiaDefinido(v.value, Agendador.DiaReset(v.value));
    }

    /** pending_transactions[chave] = p. */
    method Guardar(chave: string, p: Pendente)
      requires Valid()
      modifies this
      ensures Valid()
      ensures pendentes == Inserir(old(pendentes), chave, p)
    {
      InserirEfeito(pendentes, chave, p, chave);
      pendentes := Inserir(pendentes, chave, p);
    }

    /** The photo, voice and text handlers after extraction; chave is the fresh uuid prefix. */
    method RegistrarGasto(userId: int, canal: Canal, dados: Option<Extraido>, resposta: Option<string>,
                          chave: string, agora: DataHora) returns (d: Desfecho)
      requires Valid()
      modifies this, db
      ensures Valid()
      ensures (d, Estado()) == RegistrarEm(old(Estado()), permitidos, userId, canal, dados, resposta, chave, agora)
    {
      if !Autorizado(permitidos, userId) {
        return GastoNaoAutorizado;
      }
      var minhas := db.ListarCaixinhas(userId);
      if minhas == [] {
        return SemCaixinhas;
      }
      if dados.None? || dados.value.valor.None? || dados.value.valor.value == 0.0 {
        return NaoExtraido;
      }
      var x := dados.value;
      var conhecido := None;
      if ConsultaMemoria(canal, x.estabelecimento) {
        conhecido := db.BuscarEstabelecimentoConhecido(userId, x.estabelecimento);
      }
      if conhecido.Some? {
        var i := IndiceCaixinha(db.caixinhas, conhecido.value.caixinhaId);
        if i.None? {
          return FalhaCaixinha;
        }
        var cx := db.caixinhas[i.value];
        var t := db.AdicionarTransacao(userId, cx.id, x.valor.value, x.estabelecimento, Some(cx.nome), x.data, agora);
        return RegistradoDireto(t);
      }
      var sugerida := Sugestao(Tabelas(db.caixinhas, db.transacoes, db.estabelecimentos, db.configuracoes, pendentes), userId, x.categoriaSugerida, resposta);
      Guardar(chave, PendenteDe(userId, canal, x));
      return AguardandoConfirmacao(chave, sugerida);
    }

    /** The confirm_ and sel_ buttons. */
    method Confirmar(clicante: int, k: string, caixinhaId: int, agora: DataHora) returns (r: RespostaCallback)
      requires Valid()
      modifies this, db
      ensures Valid()
      ensures (r, Estado()) == ConfirmarEm(old(Estado()), clicante, k, caixinhaId, agora)
    {
      var td := Consultar(pendentes, k);
      if td.None? {
        return Expirada;
      }
      var i := IndiceCaixinha(db.caixinhas, caixinhaId);
      if i.None? {
        return CaixinhaInexistente;
      }
      var cx := db.caixinhas[i.value];
      var t := db.AdicionarTransacao(td.value.userId, cx.id, td.value.valor, td.value.estabelecimento,
                                     Some(cx.nome), td.value.data, agora);
      var e := db.SalvarEstabelecimentoConhecido(clicante, td.value.estabelecimento, cx.id);
      RemoverEfeito(pendentes, k, k);
      pendentes := Remover(pendentes, k);
      return Registrada(t);
    }

    /** callback_handler; callbacks are not checked against the access list. */
    method TratarCallback(clicante: int, dados: string, agora: DataHora) returns (r: RespostaCallback)
      requires Valid()
      modifies this, db
      ensures Valid()
      ensures (r, Estado()) == CallbackEm(old(Estado()), clicante, dados, agora)
    {
      var c := ParseCallback(dados);
      if c.None? {
        return Invalido;
      }
      match c.value
      case Confirmar(k, id) =>
        r := Confirmar(clicante, k, id, agora);
      case Selecionar(k, id) =>
        r := Confirmar(clicante, k, id, agora);
      case Mudar(k) =>
        if Consultar(pendentes, k).None? {
          return Expirada;
        }
        return Opcoes(db.ListarCaixinhas(clicante));
      case Nova(k) =>
        if Consultar(pendentes, k).None? {
          return Expirada;
        }
        MarcarEfeito(pendentes, k, k);
        pendentes := Marcar(pendentes, k);
        return AguardandoNome;
    }

    /** The scan of processar_texto: the key of the user's first waiting entry, in insertion order. */
    method BuscarAguardando(u: int) returns (chave: Option<string>)
      ensures chave == ChaveAguardando(pendentes, u)
    {
      var i := 0;
      while i < |pendentes|
        invariant 0 <= i <= |pendentes|
        invariant forall j :: 0 <= j < i ==> !Aguarda(pendentes[j], u)
      {
        if pendentes[i].pendente.aguardandoCaixinha && pendentes[i].pendente.userId == u {
          return Some(pendentes[i].chave);
        }
        i := i + 1;
      }
      return None;
    }

    /** processar_criar_caixinha_inline. */
    method CriarCaixinhaInline(userId: int, k: string, texto: string, agora: DataHora) returns (r: RespostaInline)
      requires Valid() && Consultar(pendentes, k).Some?
      modifies this, db
      ensures Valid()
      ensures (r, Estado()) == CriarInlineEm(old(Estado()), userId, k, texto, agora)
    {
      var partes := RSplitEspaco(texto);
      if |partes| != 2 {
        return FormatoInline;
      }
      var limite := LimiteInformado(partes[1]);
      if limite.None? {
        return LimiteInline;
      }
      var c := db.CriarCaixinha(userId, partes[0], limite.value, agora);
      var td := Consultar(pendentes, k).value;
      var t := db.AdicionarTransacao(td.userId, c.id, td.valor, td.estabelecimento, Some(c.nome), td.data, agora);
      var e := db.SalvarEstabelecimentoConhecido(userId, td.estabelecimento, c.id);
      RemoverEfeito(pendentes, k, k);
      pendentes := Remover(pendentes, k);
      return CaixinhaCriada(c, t);
    }

    /** processar_texto. */
    method ProcessarTexto(userId: int, texto: string, extraido: Option<Extracao.DadosAudio>, resposta: Option<string>,
                          chave: string, agora: DataHora) returns (r: RespostaTexto)
      requires Valid()
      modifies this, db
      ensures Valid()
      ensures (r, Estado()) == ProcessarTextoEm(old(Estado()), permitidos, userId, texto, extraido, resposta, chave, agora)
    {
      if !Autorizado(permitidos, userId) {
        return TextoIgnorado;
      }
      var t := Strip(texto);
      var k := BuscarAguardando(userId);
      if k.Some? {
        var i := PrimeiroAguardando(pendentes, userId).value;
        assert Entrada(k.value, pendentes[i].pendente) in pendentes;
        var ri := CriarCaixinhaInline(userId, k.value, t, agora);
        return Inline(ri);
      }
      var dados := if extraido.Some? then Some(DoAudio(extraido.value, agora)) else None;
      var d := RegistrarGasto(userId, CanalTexto, dados, resposta, chave, agora);
      return Gasto(d);
    }
  }
}
