/**
 * What audio_processor.py and gemini_processor.py do with the model's answer: strip a
 * markdown code fence, then normalise the decoded JSON object into a record with
 * defaults, case normalisation, a category whitelist and, for receipts, a date.
 * The AI call and json.loads are oracles passed in by the caller.
 */
module Extracao {
  import opened Comum
  import opened Texto
  import opened Calendario

  // ---------------------------------------------------------------- decoded JSON

  /**
   * A value of the decoded object. A number carries its value and its str() rendering;
   * a list or an object is abstracted to whether it is non-empty and its str() rendering.
   */
  datatype Json =
    | JNull
    | JBool(b: bool)
    | JNum(valor: real, repr: string)
    | JStr(s: string)
    | JComposto(naoVazio: bool, repr: string)

  type Dict = map<string, Json>

  /** Python truthiness. */
  predicate Verdadeiro(j: Json) {
    match j
    case JNull => false
    case JBool(b) => b
    case JNum(v, _) => v != 0.0
    case JStr(s) => s != ""
    case JComposto(n, _) => n
  }

  /** float(x); None is the ValueError or TypeError that the validators swallow. */
  function Float(j: Json): Option<real> {
    match j
    case JNull => None
    case JBool(b) => Some(if b then 1.0 else 0.0)
    case JNum(v, _) => Some(v)
    case JStr(s) => ParseFloat(s)
    case JComposto(_, _) => None
  }

  /** str(x). */
  function Str(j: Json): string {
    match j
    case JNull => "None"
    case JBool(b) => if b then "True" else "False"
    case JNum(_, r) => r
    case JStr(s) => s
    case JComposto(_, r) => r
  }

  /** `k in dados and dados[k]`. */
  predicate Presente(d: Dict, k: string) {
    k in d && Verdadeiro(d[k])
  }

  const CategoriasValidas: seq<string> :=
    ["Alimentação fora de casa", "Supermercado", "Transporte", "Saúde",
     "Lazer", "Compras", "Contas", "Outros"]

  const EstabelecimentoPadrao: string := "Não especificado"

  /** The suggested category when it is one of the eight names, else "Outros". */
  function CategoriaDe(d: Dict): (c: string)
    ensures c in CategoriasValidas
    ensures c == "Outros" || ("categoria_sugerida" in d && d["categoria_sugerida"] == JStr(c))
    ensures "categoria_sugerida" in d && d["categoria_sugerida"].JStr? && d["categoria_sugerida"].s in CategoriasValidas ==>
              c == d["categoria_sugerida"].s
  {
    if "categoria_sugerida" in d && d["categoria_sugerida"].JStr? && d["categoria_sugerida"].s in CategoriasValidas
    then d["categoria_sugerida"].s
    else "Outros"
  }

  /** The value field: float(valor) when present and convertible. */
  function ValorDe(d: Dict): (r: Option<real>)
    ensures r.Some? ==> Presente(d, "valor") && Float(d["valor"]) == r
    ensures Presente(d, "valor") && Float(d["valor"]).Some? ==> r == Float(d["valor"])
  {
    if Presente(d, "valor") then Float(d["valor"]) else None
  }

  // ---------------------------------------------------------------- audio and free text

  datatype DadosAudio = DadosAudio(valor: Option<real>, estabelecimento: string, categoriaSugerida: string,
                                   descricao: string, metodoPagamento: Option<string>)

  /** The record audio_processor's _validar_dados returns for a decoded object. */
  function DadosAudioDe(d: Dict): DadosAudio {
    DadosAudio(
      ValorDe(d),
      if Presente(d, "estabelecimento") then Maiusculas(Str(d["estabelecimento"])) else EstabelecimentoPadrao,
      CategoriaDe(d),
      if Presente(d, "descricao") then Str(d["descricao"]) else "",
      if Presente(d, "metodo_pagamento") then Some(Minusculas(Str(d["metodo_pagamento"]))) else None)
  }

  /** _validar_dados (audio): starts from the defaults and overwrites field by field. */
  method ValidarDadosAudio(d: Dict) returns (r: DadosAudio)
    ensures r == DadosAudioDe(d)
  {
    r := DadosAudio(None, EstabelecimentoPadrao, "Outros", "", None);
    if "valor" in d && Verdadeiro(d["valor"]) {
      var v := Float(d["valor"]);
      if v.Some? {
        r := r.(valor := v);
      }
    }
    if "estabelecimento" in d && Verdadeiro(d["estabelecimento"]) {
      r := r.(estabelecimento := Maiusculas(Str(d["estabelecimento"])));
    }
    if "categoria_sugerida" in d && d["categoria_sugerida"].JStr? && d["categoria_sugerida"].s in CategoriasValidas {
      r := r.(categoriaSugerida := d["categoria_sugerida"].s);
    }
    if "descricao" in d && Verdadeiro(d["descricao"]) {
      r := r.(descricao := Str(d["descricao"]));
    }
    if "metodo_pagamento" in d && Verdadeiro(d["metodo_pagamento"]) {
      r := r.(metodoPagamento := Some(Minusculas(Str(d["metodo_pagamento"]))));
    }
  }

  /** An empty object yields the documented defaults. */
  lemma DadosAudioPadrao()
    ensures DadosAudioDe(map[]) == DadosAudio(None, EstabelecimentoPadrao, "Outros", "", None)
  {
  }

  /**
   * Whatever the model answers, the record is normalised: a whitelisted category, a
   * payee that is the default or already upper case, a lower-case payment method,
   * and a value only where the object had a truthy, convertible one.
   */
  lemma DadosAudioNormalizados(d: Dict)
    ensures var r := DadosAudioDe(d);
            r.categoriaSugerida in CategoriasValidas &&
            (r.estabelecimento == EstabelecimentoPadrao || Maiusculas(r.estabelecimento) == r.estabelecimento) &&
            (r.metodoPagamento.Some? ==> Minusculas(r.metodoPagamento.value) == r.metodoPagamento.value) &&
            (r.valor.Some? ==> Presente(d, "valor"))
  {
    if Presente(d, "estabelecimento") {
      MaiusculasIdempotente(Str(d["estabelecimento"]));
    }
    if Presente(d, "metodo_pagamento") {
      MinusculasIdempotente(Str(d["metodo_pagamento"]));
    }
  }

  /** The object a record reads back from: each field as a JSON string or number, None as null. */
  function AudioComoDict(r: DadosAudio, reprValor: string): Dict {
    map["valor" := (if r.valor.Some? then JNum(r.valor.value, reprValor) else JNull),
        "estabelecimento" := JStr(r.estabelecimento),
        "categoria_sugerida" := JStr(r.categoriaSugerida),
        "descricao" := JStr(r.descricao),
        "metodo_pagamento" := (if r.metodoPagamento.Some? then JStr(r.metodoPagamento.value) else JNull)]
  }

  /** Validating a normalised record again gives it back: the normalisation is stable. */
  lemma DadosAudioEstaveis(r: DadosAudio, reprValor: string)
    requires r.valor.Some? ==> r.valor.value != 0.0
    requires r.estabelecimento != "" && Maiusculas(r.estabelecimento) == r.estabelecimento
    requires r.categoriaSugerida in CategoriasValidas
    requires r.metodoPagamento.Some? ==> r.metodoPagamento.value != "" &&
                                         Minusculas(r.metodoPagamento.value) == r.metodoPagamento.value
    ensures DadosAudioDe(AudioComoDict(r, reprValor)) == r
  {
  }

  // ---------------------------------------------------------------- receipts

  datatype DadosComprovante = DadosComprovante(valor: Option<real>, estabelecimento: Option<string>,
                                               data: DataHora, categoriaSugerida: string)

  predicate Digitos(s: string, de: nat, ate: nat) {
    de <= |s| <= ate && SoDigitos(s)
  }

  /** datetime.strptime(s, '%Y-%m-%d'): four-digit year, one- or two-digit month and day, a real date. */
  function ParseDataISO(s: string): (r: Option<Data>)
    ensures r.Some? ==> DataValida(r.value)
  {
    var ps := Split(s, '-');
    if |ps| == 3 && Digitos(ps[0], 4, 4) && Digitos(ps[1], 1, 2) && Digitos(ps[2], 1, 2) then
      var d := Data(ValorDigitos(ps[0]), ValorDigitos(ps[1]), ValorDigitos(ps[2]));
      if DataValida(d) then Some(d) else None
    else None
  }

  /** The date field: the parsed date at midnight, or agora when it is absent, not a string or not a date. */
  function DataDe(d: Dict, agora: DataHora): DataHora {
    if Presente(d, "data") && d["data"].JStr? && ParseDataISO(d["data"].s).Some?
    then DataHora(ParseDataISO(d["data"].s).value, 0)
    else agora
  }

  /** The record gemini_processor's _validar_dados returns for a decoded object. */
  function DadosComprovanteDe(d: Dict, agora: DataHora): DadosComprovante {
    DadosComprovante(
      ValorDe(d),
      if Presente(d, "estabelecimento") then Some(Maiusculas(Str(d["estabelecimento"]))) else None,
      DataDe(d, agora),
      CategoriaDe(d))
  }

  /** _validar_dados (receipt), with datetime.now() passed in as agora. */
  method ValidarDadosComprovante(d: Dict, agora: DataHora) returns (r: DadosComprovante)
    ensures r == DadosComprovanteDe(d, agora)
  {
    r := DadosComprovante(None, None, agora, "Outros");
    if "valor" in d && Verdadeiro(d["valor"]) {
      var v := Float(d["valor"]);
      if v.Some? {
        r := r.(valor := v);
      }
    }
    if "estabelecimento" in d && Verdadeiro(d["estabelecimento"]) {
      r := r.(estabelecimento := Some(Maiusculas(Str(d["estabelecimento"]))));
    }
    if "data" in d && Verdadeiro(d["data"]) {
      if d["data"].JStr? {
        var p := ParseDataISO(d["data"].s);
        if p.Some? {
          r := r.(data := DataHora(p.value, 0));
        } else {
          r := r.(data := agora);
        }
      } else {
        r := r.(data := agora);
      }
    } else {
      r := r.(data := agora);
    }
    if "categoria_sugerida" in d && d["categoria_sugerida"].JStr? && d["categoria_sugerida"].s in CategoriasValidas {
      r := r.(categoriaSugerida := d["categoria_sugerida"].s);
    }
  }

  /** Every receipt record has a valid date: the parsed one or the fallback. */
  lemma ComprovanteSempreDatado(d: Dict, agora: DataHora)
    requires DataHoraValida(agora)
    ensures DataHoraValida(DadosComprovanteDe(d, agora).data)
    ensures DadosComprovanteDe(d, agora).data == agora ||
            (Presente(d, "data") && d["data"].JStr? && ParseDataISO(d["data"].s).Some?)
  {
  }

  function Pad2(n: nat): (r: string)
    requires 1 <= n <= 99
    ensures |r| == 2 && SoDigitos(r) && ValorDigitos(r) == n
  {
    if n < 10 then
      var r := ['0', Digito(n)];
      assert r[..1] == ['0'];
      assert r[..1][..0] == [];
      assert ValorDigitos(r[..1]) == 0;
      assert ValorDigitos(r) == ValorDigitos(r[..1]) * 10 + (r[1] as int - '0' as int);
      r
    else
      var r := NatParaTexto(n);
      ValorNatParaTexto(n);
      assert r == NatParaTexto(n / 10) + [Digito(n % 10)];
      assert |NatParaTexto(n / 10)| == 1;
      r
  }

  lemma QuatroDigitos(n: nat)
    requires 1000 <= n <= 9999
    ensures |NatParaTexto(n)| == 4
  {
    assert |NatParaTexto(n / 1000)| == 1;
    assert n / 100 / 10 == n / 1000;
    assert |NatParaTexto(n / 100)| == 2;
    assert n / 10 / 10 == n / 100;
    assert |NatParaTexto(n / 10)| == 3;
  }

  /** The YYYY-MM-DD text of a date. */
  function FormatarISO(dt: Data): string
    requires DataValida(dt) && 1000 <= dt.ano <= 9999
  {
    NatParaTexto(dt.ano) + "-" + Pad2(dt.mes) + "-" + Pad2(dt.dia)
  }

  /** Any real date of a four-digit year, written as YYYY-MM-DD, parses back to itself. */
  lemma DataISOIdaVolta(dt: Data)
    requires DataValida(dt) && 1000 <= dt.ano <= 9999
    ensures ParseDataISO(FormatarISO(dt)) == Some(dt)
  {
    var a, m, d := NatParaTexto(dt.ano), Pad2(dt.mes), Pad2(dt.dia);
    QuatroDigitos(dt.ano);
    ValorNatParaTexto(dt.ano);
    assert '-' !in a && '-' !in m && '-' !in d;
    SplitPrimeiro(a, '-', m + "-" + d);
    SplitPrimeiro(m, '-', d);
    assert FormatarISO(dt) == a + ['-'] + (m + ['-'] + d);
    assert Split(d, '-') == [d];
  }

  // ---------------------------------------------------------------- code fences

  /** Drops the first and the last line of an answer that starts with ```. */
  function RemoverCercas(t: string): string {
    if ComecaCom(t, "```") then
      var ls := Split(t, '\n');
      if |ls| <= 2 then "" else Join('\n', ls[1..|ls| - 1])
    else t
  }

  /** The audio and text paths test for ```json and then do the same thing in both branches. */
  function RemoverCercasAudio(t: string): string {
    if ComecaCom(t, "```") then
      var ls := Split(t, '\n');
      if ComecaCom(ls[0], "```json") then
        (if |ls| <= 2 then "" else Join('\n', ls[1..|ls| - 1]))
      else
        (if |ls| <= 2 then "" else Join('\n', ls[1..|ls| - 1]))
    else t
  }

  lemma CercasAudioIguais(t: string)
    ensures RemoverCercasAudio(t) == RemoverCercas(t)
  {
  }

  /** A fenced body comes out exactly, whatever the info string after the opening fence. */
  lemma CercaRemovida(info: string, corpo: string)
    requires '\n' !in info
    ensures RemoverCercas("```" + info + "\n" + corpo + "\n```") == corpo
  {
    var abre := "```" + info;
    var t := abre + "\n" + corpo + "\n```";
    assert t[..3] == "```";
    assert '\n' !in abre;
    assert t == (abre + ['\n'] + corpo) + ['\n'] + "```";
    SplitUltimo(abre + ['\n'] + corpo, '\n', "```");
    SplitPrimeiro(abre, '\n', corpo);
    var ls := Split(t, '\n');
    assert ls == [abre] + Split(corpo, '\n') + ["```"];
    assert ls[1..|ls| - 1] == Split(corpo, '\n');
    JoinSplit(corpo, '\n');
  }

  /** An answer without an opening fence is passed on untouched. */
  lemma SemCercaIntacto(t: string)
    requires !ComecaCom(t, "```")
    ensures RemoverCercas(t) == t
  {
  }

  // ---------------------------------------------------------------- the processing pipelines

  /** The text json.loads is given: the answer stripped and unfenced. */
  function Limpo(resposta: string): string {
    RemoverCercas(Strip(resposta))
  }

  /**
   * processar_audio / processar_texto after the AI call: resposta is the answer text,
   * None when the call raised; analisar is json.loads, None when it raises. Every
   * failure is the None result.
   */
  method ProcessarRespostaAudio(resposta: Option<string>, analisar: string -> Option<Dict>) returns (r: Option<DadosAudio>)
    ensures r.None? <==> resposta.None? || analisar(Limpo(resposta.value)).None?
    ensures r.Some? ==> r.value == DadosAudioDe(analisar(Limpo(resposta.value)).value)
  {
    if resposta.None? {
      return None;
    }
    var t := Strip(resposta.value);
    t := RemoverCercasAudio(t);
    CercasAudioIguais(Strip(resposta.value));
    var dados := analisar(t);
    if dados.None? {
      return None;
    }
    var v := ValidarDadosAudio(dados.value);
    return Some(v);
  }

  /** processar_comprovante after the AI call, with datetime.now() passed in as agora. */
  method ProcessarRespostaComprovante(resposta: Option<string>, analisar: string -> Option<Dict>, agora: DataHora)
    returns (r: Option<DadosComprovante>)
    ensures r.None? <==> resposta.None? || analisar(Limpo(resposta.value)).None?
    ensures r.Some? ==> r.value == DadosComprovanteDe(analisar(Limpo(resposta.value)).value, agora)
  {
    if resposta.None? {
      return None;
    }
    var t := RemoverCercas(Strip(resposta.value));
    var dados := analisar(t);
    if dados.None? {
      return None;
    }
    var v := ValidarDadosComprovante(dados.value, agora);
    return Some(v);
  }

  /**
   * categorizar_estabelecimento: None for an empty list or a failed call; otherwise the
   * stripped answer, and only when it is exactly one of the offered names.
   */
  function CategorizarEstabelecimento(categorias: seq<string>, resposta: Option<string>): (r: Option<string>)
    ensures categorias == [] || resposta.None? ==> r.None?
    ensures r.Some? ==> r.value in categorias
    ensures categorias != [] && resposta.Some? ==>
              (r.Some? <==> Strip(resposta.value) in categorias) &&
              (r.Some? ==> r.value == Strip(resposta.value))
  {
    if categorias == [] then None
    else match resposta
      case None => None
      case Some(t) => if Strip(t) in categorias then Some(Strip(t)) else None
  }
}
