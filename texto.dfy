/**
 * The handful of Python string operations the core relies on: str.upper(),
 * str.lower(), str.strip(), str.split(c), c.join(xs), str(int), int(str),
 * str.replace(p, q) and str.rsplit(c, 1).
 */
module Texto {
  import opened Comum

  // ---------------------------------------------------------------- case

  predicate EhMinuscula(c: char) {
    'a' <= c <= 'z' || ('\U{00E0}' <= c <= '\U{00FE}' && c != '\U{00F7}')
  }

  predicate EhMaiuscula(c: char) {
    'A' <= c <= 'Z' || ('\U{00C0}' <= c <= '\U{00DE}' && c != '\U{00D7}')
  }

  /** str.upper() on one ASCII or Latin-1 character. */
  function MaiusculaChar(c: char): (r: char)
    ensures !EhMinuscula(r)
    ensures EhMinuscula(c) ==> EhMaiuscula(r) && r as int == c as int - 32
    ensures !EhMinuscula(c) ==> r == c
  {
    if EhMinuscula(c) then (c as int - 32) as char else c
  }

  /** str.lower() on one ASCII or Latin-1 character. */
  function MinusculaChar(c: char): (r: char)
    ensures !EhMaiuscula(r)
    ensures EhMaiuscula(c) ==> EhMinuscula(r) && r as int == c as int + 32
    ensures !EhMaiuscula(c) ==> r == c
  {
    if EhMaiuscula(c) then (c as int + 32) as char else c
  }

  function Maiusculas(s: string): (r: string)
    ensures |r| == |s|
    ensures forall i :: 0 <= i < |s| ==> r[i] == MaiusculaChar(s[i])
  {
    seq(|s|, i requires 0 <= i < |s| => MaiusculaChar(s[i]))
  }

  function Minusculas(s: string): (r: string)
    ensures |r| == |s|
    ensures forall i :: 0 <= i < |s| ==> r[i] == MinusculaChar(s[i])
  {
    seq(|s|, i requires 0 <= i < |s| => MinusculaChar(s[i]))
  }

  /** Upper-casing twice is upper-casing once. */
  lemma MaiusculasIdempotente(s: string)
    ensures Maiusculas(Maiusculas(s)) == Maiusculas(s)
  {
  }

  /** Two spellings that differ only in letter case upper-case to the same key. */
  lemma MaiusculasIgnoraCaixa(s: string)
    ensures Maiusculas(Minusculas(s)) == Maiusculas(s)
  {
    forall i | 0 <= i < |s|
      ensures Maiusculas(Minusculas(s))[i] == Maiusculas(s)[i]
    {
      var c := s[i];
      if EhMaiuscula(c) {
        assert MinusculaChar(c) as int == c as int + 32;
      }
    }
  }

  lemma MinusculasIdempotente(s: string)
    ensures Minusculas(Minusculas(s)) == Minusculas(s)
  {
  }

  // ---------------------------------------------------------------- strip

  /** The characters for which Python's str.isspace() holds. */
  predicate EhEspaco(c: char) {
    c == ' ' || '\t' <= c <= '\r' || '\U{001C}' <= c <= '\U{001F}' || c == '\U{0085}'
    || c == '\U{00A0}' || c == '\U{1680}' || '\U{2000}' <= c <= '\U{200A}'
    || c == '\U{2028}' || c == '\U{2029}' || c == '\U{202F}' || c == '\U{205F}' || c == '\U{3000}'
  }

  function StripEsquerda(s: string): (r: string)
    ensures |r| <= |s| && r == s[|s| - |r|..]
    ensures r == [] || !EhEspaco(r[0])
    ensures forall i :: 0 <= i < |s| - |r| ==> EhEspaco(s[i])
  {
    if s != [] && EhEspaco(s[0]) then StripEsquerda(s[1..]) else s
  }

  function StripDireita(s: string): (r: string)
    ensures |r| <= |s| && r == s[..|r|]
    ensures r == [] || !EhEspaco(r[|r| - 1])
    ensures forall i :: |r| <= i < |s| ==> EhEspaco(s[i])
  {
    if s != [] && EhEspaco(s[|s| - 1]) then StripDireita(s[..|s| - 1]) else s
  }

  /** str.strip() with no argument. */
  function Strip(s: string): (r: string)
  {
    StripDireita(StripEsquerda(s))
  }

  /** A string that neither starts nor ends with white space is its own strip. */
  lemma StripSemBordas(s: string)
    requires s == [] || (!EhEspaco(s[0]) && !EhEspaco(s[|s| - 1]))
    ensures Strip(s) == s
  {
  }

  /** The result of strip() has no white space at either end. */
  lemma StripBordas(s: string)
    ensures var r := Strip(s); r == [] || (!EhEspaco(r[0]) && !EhEspaco(r[|r| - 1]))
  {
    var l := StripEsquerda(s);
    var r := StripDireita(l);
    if r != [] {
      assert r[0] == l[0];
    }
  }

  // ---------------------------------------------------------------- split / join

  function IndiceDe(s: string, c: char): (k: nat)
    requires c in s
    ensures k < |s| && s[k] == c && c !in s[..k]
  {
    if s[0] == c then 0 else 1 + IndiceDe(s[1..], c)
  }

  /** s.split(sep) for a one-character separator: never empty, no piece holds sep. */
  function Split(s: string, sep: char): (r: seq<string>)
    ensures |r| >= 1
    ensures forall i :: 0 <= i < |r| ==> sep !in r[i]
    decreases |s|
  {
    if sep !in s then [s]
    else
      var k := IndiceDe(s, sep);
      [s[..k]] + Split(s[k + 1..], sep)
  }

  /** [sep].join(xs). */
  function Join(sep: char, xs: seq<string>): string
  {
    if |xs| == 0 then ""
    else if |xs| == 1 then xs[0]
    else xs[0] + [sep] + Join(sep, xs[1..])
  }

  /** Joining the pieces of a split gives the string back. */
  lemma {:induction false} JoinSplit(s: string, sep: char)
    ensures Join(sep, Split(s, sep)) == s
    decreases |s|
  {
    if sep in s {
      var k := IndiceDe(s, sep);
      var rest := Split(s[k + 1..], sep);
      JoinSplit(s[k + 1..], sep);
      assert Split(s, sep) == [s[..k]] + rest;
      assert s == s[..k] + [sep] + s[k + 1..];
    }
  }

  /** Splitting a join of separator-free pieces gives the pieces back. */
  lemma {:induction false} SplitJoin(xs: seq<string>, sep: char)
    requires |xs| >= 1
    requires forall i :: 0 <= i < |xs| ==> sep !in xs[i]
    ensures Split(Join(sep, xs), sep) == xs
  {
    if |xs| > 1 {
      var tail := Join(sep, xs[1..]);
      var s := xs[0] + [sep] + tail;
      assert Join(sep, xs) == s;
      IndiceDePrimeiro(xs[0], sep, tail);
      assert s[..|xs[0]|] == xs[0];
      assert s[|xs[0]| + 1..] == tail;
      assert Split(s, sep) == [xs[0]] + Split(tail, sep);
      SplitJoin(xs[1..], sep);
      assert xs == [xs[0]] + xs[1..];
    }
  }

  lemma IndiceDePrimeiro(a: string, sep: char, b: string)
    requires sep !in a
    ensures sep in a + [sep] + b && IndiceDe(a + [sep] + b, sep) == |a|
  {
    var s := a + [sep] + b;
    assert s[|a|] == sep;
    assert s[..|a|] == a;
  }

  /** s.rsplit(sep, 1): the part before the last separator and the part after it. */
  function RSplitUma(s: string, sep: char): (r: seq<string>)
    ensures 1 <= |r| <= 2
    ensures |r| == 1 <==> sep !in s
    ensures |r| == 2 ==> sep !in r[1] && s == r[0] + [sep] + r[1]
  {
    if sep !in s then [s]
    else if s[|s| - 1] == sep then [s[..|s| - 1], ""]
    else
      var p := RSplitUma(s[..|s| - 1], sep);
      assert s[..|s| - 1] == p[0] + [sep] + p[1];
      [p[0], p[1] + [s[|s| - 1]]]
  }

  // ---------------------------------------------------------------- replace

  /** s.replace(p, q): every non-overlapping occurrence, scanning left to right. */
  function Substituir(s: string, p: string, q: string): string
    requires |p| > 0
    decreases |s|
  {
    if |s| < |p| then s
    else if s[..|p|] == p then q + Substituir(s[|p|..], p, q)
    else [s[0]] + Substituir(s[1..], p, q)
  }

  /** When some character of p never appears in t, replacing p in t changes nothing. */
  lemma {:induction false} SubstituirSemOcorrencia(t: string, p: string, q: string, j: nat)
    requires |p| > 0 && j < |p| && p[j] !in t
    ensures Substituir(t, p, q) == t
    decreases |t|
  {
    if |t| >= |p| {
      assert t[j] in t;
      SubstituirSemOcorrencia(t[1..], p, q, j);
      assert t == [t[0]] + t[1..];
    }
  }

  /** A leading occurrence is replaced and the rest is scanned on. */
  lemma SubstituirPrefixo(p: string, t: string, q: string)
    requires |p| > 0
    ensures Substituir(p + t, p, q) == q + Substituir(t, p, q)
  {
    assert (p + t)[..|p|] == p;
    assert (p + t)[|p|..] == t;
  }

  // ---------------------------------------------------------------- integers

  predicate EhDigito(c: char) { '0' <= c <= '9' }

  predicate SoDigitos(s: string) { forall i :: 0 <= i < |s| ==> EhDigito(s[i]) }

  function Digito(d: int): (c: char)
    requires 0 <= d < 10
    ensures EhDigito(c) && c as int - '0' as int == d
  {
    ('0' as int + d) as char
  }

  /** Decimal value of a string of ASCII digits, read left to right. */
  function ValorDigitos(s: string): nat
    requires SoDigitos(s)
  {
    if s == [] then 0 else ValorDigitos(s[..|s| - 1]) * 10 + (s[|s| - 1] as int - '0' as int)
  }

  function NatParaTexto(n: nat): (r: string)
    ensures |r| >= 1 && SoDigitos(r)
  {
    if n < 10 then [Digito(n)] else NatParaTexto(n / 10) + [Digito(n % 10)]
  }

  /** str(n) for a Python int. */
  function IntParaTexto(n: int): (r: string)
    ensures |r| >= 1
    ensures forall i :: 0 <= i < |r| ==> EhDigito(r[i]) || (i == 0 && r[i] == '-')
    ensures EhDigito(r[|r| - 1])
  {
    if n < 0 then "-" + NatParaTexto(-n) else NatParaTexto(n)
  }

  /**
   * int(s) restricted to ASCII: surrounding white space, an optional sign and
   * at least one digit; anything else is the ValueError path (None).
   */
  function ParseInt(s: string): (r: Option<int>)
  {
    Inteiro(Strip(s))
  }

  /** An already stripped int() literal: an optional sign and at least one digit. */
  function Inteiro(t: string): (r: Option<int>)
  {
    if |t| > 0 && (t[0] == '-' || t[0] == '+') then
      var ds := t[1..];
      if |ds| > 0 && SoDigitos(ds) then Some(if t[0] == '-' then -(ValorDigitos(ds) as int) else ValorDigitos(ds) as int)
      else None
    else if |t| > 0 && SoDigitos(t) then Some(ValorDigitos(t) as int)
    else None
  }

  lemma {:induction false} ValorNatParaTexto(n: nat)
    ensures ValorDigitos(NatParaTexto(n)) == n
  {
    if n >= 10 {
      var s := NatParaTexto(n / 10) + [Digito(n % 10)];
      assert s[..|s| - 1] == NatParaTexto(n / 10);
      ValorNatParaTexto(n / 10);
    }
  }

  /** str(n) has no white space at either end, so int() and float() see it unstripped. */
  lemma IntParaTextoSemBordas(n: int)
    ensures Strip(IntParaTexto(n)) == IntParaTexto(n)
  {
    var s := IntParaTexto(n);
    assert s[0] == '-' || EhDigito(s[0]);
    assert EhDigito(s[|s| - 1]);
    StripSemBordas(s);
  }

  /** int(str(n)) == n. */
  lemma ParseIntIntParaTexto(n: int)
    ensures ParseInt(IntParaTexto(n)) == Some(n)
  {
    IntParaTextoSemBordas(n);
    InteiroIntParaTexto(n);
  }

  lemma InteiroIntParaTexto(n: int)
    ensures Inteiro(IntParaTexto(n)) == Some(n)
  {
    var s := IntParaTexto(n);
    if n < 0 {
      assert s[1..] == NatParaTexto(-n);
      ValorNatParaTexto(-n);
    } else {
      assert s == NatParaTexto(n) && EhDigito(s[0]);
      ValorNatParaTexto(n);
    }
  }

  /** str() on ints is injective. */
  lemma IntParaTextoInjetiva(a: int, b: int)
    requires IntParaTexto(a) == IntParaTexto(b)
    ensures a == b
  {
    ParseIntIntParaTexto(a);
    ParseIntIntParaTexto(b);
  }

  // ---------------------------------------------------------------- floats

  function Pot10(n: nat): (r: nat)
    ensures r >= 1
  {
    if n == 0 then 1 else 10 * Pot10(n - 1)
  }

  /** A plain decimal numeral: digits, optionally one '.' and more digits, at least one digit in all. */
  function Decimal(s: string): Option<real>
  {
    if '.' in s then
      var k := IndiceDe(s, '.');
      var a := s[..k];
      var b := s[k + 1..];
      if |a| + |b| > 0 && SoDigitos(a) && SoDigitos(b) then
        Some(ValorDigitos(a) as real + (ValorDigitos(b) as real) / (Pot10(|b|) as real))
      else None
    else if |s| > 0 && SoDigitos(s) then Some(ValorDigitos(s) as real)
    else None
  }

  /**
   * float(s) for plain decimal numerals: surrounding white space, an optional sign,
   * and a Decimal; anything else is the ValueError path (None).
   */
  function ParseFloat(s: string): (r: Option<real>)
  {
    Real(Strip(s))
  }

  /** An already stripped float() literal: an optional sign and a Decimal. */
  function Real(t: string): (r: Option<real>)
  {
    if |t| > 0 && (t[0] == '-' || t[0] == '+') then
      match Decimal(t[1..])
      case None => None
      case Some(v) => Some(if t[0] == '-' then -v else v)
    else Decimal(t)
  }

  /** A numeral without a point reads as its digits' value. */
  lemma DecimalNatParaTexto(n: nat)
    ensures Decimal(NatParaTexto(n)) == Some(n as real)
  {
    var s := NatParaTexto(n);
    assert forall i :: 0 <= i < |s| ==> s[i] != '.';
    ValorNatParaTexto(n);
  }

  /** float(str(n)) == n. */
  lemma ParseFloatInteiro(n: int)
    ensures ParseFloat(IntParaTexto(n)) == Some(n as real)
  {
    IntParaTextoSemBordas(n);
    RealIntParaTexto(n);
  }

  lemma RealIntParaTexto(n: int)
    ensures Real(IntParaTexto(n)) == Some(n as real)
  {
    var s := IntParaTexto(n);
    if n < 0 {
      var m: nat := -n;
      assert s[1..] == NatParaTexto(m);
      DecimalNatParaTexto(m);
    } else {
      assert s == NatParaTexto(n) && EhDigito(s[0]);
      DecimalNatParaTexto(n);
    }
  }

  // ---------------------------------------------------------------- more on split

  predicate ComecaCom(s: string, p: string) {
    |p| <= |s| && s[..|p|] == p
  }

  /** The first piece of a split runs up to the first separator. */
  lemma SplitPrimeiro(a: string, sep: char, b: string)
    requires sep !in a
    ensures Split(a + [sep] + b, sep) == [a] + Split(b, sep)
  {
    IndiceDePrimeiro(a, sep, b);
    var s := a + [sep] + b;
    assert s[..|a|] == a;
    assert s[|a| + 1..] == b;
  }

  lemma CortarNoIndice(a: string, k: nat)
    requires k < |a|
    ensures a == a[..k] + [a[k]] + a[k + 1..]
  {
  }

  lemma Reassociar(p: string, sep: char, r: string, c: string)
    ensures p + [sep] + r + [sep] + c == p + [sep] + (r + [sep] + c)
  {
  }

  /** The last piece of a split is what follows the last separator. */
  lemma {:induction false} SplitUltimo(a: string, sep: char, c: string)
    requires sep !in c
    ensures Split(a + [sep] + c, sep) == Split(a, sep) + [c]
    decreases |a|
  {
    if sep !in a {
      SplitPrimeiro(a, sep, c);
    } else {
      var k := IndiceDe(a, sep);
      var p := a[..k];
      var resto := a[k + 1..];
      CortarNoIndice(a, k);
      Reassociar(p, sep, resto, c);
      SplitPrimeiro(p, sep, resto + [sep] + c);
      SplitPrimeiro(p, sep, resto);
      SplitUltimo(resto, sep, c);
    }
  }

  // ---------------------------------------------------------------- rsplit on white space

  /** The index of the last white-space character of s. */
  function UltimoEspaco(s: string): (k: Option<nat>)
    ensures k.Some? ==> k.value < |s| && EhEspaco(s[k.value]) && forall i :: k.value < i < |s| ==> !EhEspaco(s[i])
    ensures k.None? ==> forall i :: 0 <= i < |s| ==> !EhEspaco(s[i])
  {
    if s == [] then None
    else if EhEspaco(s[|s| - 1]) then Some(|s| - 1)
    else UltimoEspaco(s[..|s| - 1])
  }

  /**
   * s.rsplit(None, 1): trailing white space is dropped, then the last word is split off
   * together with the run of white space before it; nothing for a blank string.
   */
  function RSplitEspaco(s: string): (r: seq<string>)
    ensures |r| <= 2
    ensures |r| == 0 <==> StripDireita(s) == []
    ensures |r| == 2 ==> r[0] != [] && !EhEspaco(r[0][|r[0]| - 1]) &&
                         r[1] != [] && forall i :: 0 <= i < |r[1]| ==> !EhEspaco(r[1][i])
  {
    var t := StripDireita(s);
    if t == [] then []
    else match UltimoEspaco(t)
      case None => [t]
      case Some(k) =>
        var antes := StripDireita(t[..k]);
        if antes == [] then [t[k + 1..]] else [antes, t[k + 1..]]
  }

  /** A name and a word joined by one space split back into the two. */
  lemma RSplitEspacoNomePalavra(nome: string, palavra: string)
    requires nome != [] && !EhEspaco(nome[|nome| - 1])
    requires palavra != [] && forall i :: 0 <= i < |palavra| ==> !EhEspaco(palavra[i])
    ensures RSplitEspaco(nome + " " + palavra) == [nome, palavra]
  {
    var s := nome + " " + palavra;
    assert !EhEspaco(s[|s| - 1]);
    assert StripDireita(s) == s;
    var k := UltimoEspaco(s);
    assert s[|nome|] == ' ';
    assert k == Some(|nome|);
    assert s[..|nome|] == nome;
    assert s[|nome| + 1..] == palavra;
  }
}
