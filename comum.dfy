/** Failure-carrying wrappers and list helpers shared by every module of the model. */
module Comum {

  /** Python's `None` or a present value. */
  datatype Option<+T> = None | Some(value: T)

  /** The outcome of an operation that the source may abort with an exception. */
  datatype Result<+T, +E> = Ok(value: T) | Err(error: E)

  function Max(a: int, b: int): (m: int)
    ensures m >= a && m >= b && (m == a || m == b)
  {
    if a >= b then a else b
  }

  /** The elements of xs that satisfy p, in their order: a list comprehension with an `if`, or a WHERE clause. */
  function Filtrar<T(!new)>(xs: seq<T>, p: T -> bool): (r: seq<T>)
    ensures |r| <= |xs|
    ensures forall x :: x in r <==> x in xs && p(x)
  {
    if xs == [] then [] else Filtrar(xs[..|xs| - 1], p) + (if p(xs[|xs| - 1]) then [xs[|xs| - 1]] else [])
  }

  lemma FiltrarSnoc<T(!new)>(xs: seq<T>, x: T, p: T -> bool)
    ensures Filtrar(xs + [x], p) == Filtrar(xs, p) + (if p(x) then [x] else [])
  {
    assert (xs + [x])[..|xs|] == xs;
  }

  lemma {:induction false} FiltrarConcat<T(!new)>(xs: seq<T>, ys: seq<T>, p: T -> bool)
    ensures Filtrar(xs + ys, p) == Filtrar(xs, p) + Filtrar(ys, p)
    decreases |ys|
  {
    if ys != [] {
      var ini := ys[..|ys| - 1];
      var u := ys[|ys| - 1];
      assert ys == ini + [u];
      assert xs + ys == (xs + ini) + [u];
      FiltrarSnoc(xs + ini, u, p);
      FiltrarSnoc(ini, u, p);
      FiltrarConcat(xs, ini, p);
    } else {
      assert xs + ys == xs;
    }
  }

  /** No two elements share a key. */
  predicate ChavesDistintas<T>(xs: seq<T>, chave: T -> int) {
    forall i, j :: 0 <= i < j < |xs| ==> chave(xs[i]) != chave(xs[j])
  }

  /** Filtering keeps a key that was distinct across the list distinct across the result. */
  lemma {:induction false} FiltrarChavesDistintas<T(!new)>(xs: seq<T>, p: T -> bool, chave: T -> int)
    requires ChavesDistintas(xs, chave)
    ensures ChavesDistintas(Filtrar(xs, p), chave)
    decreases |xs|
  {
    if xs != [] {
      var ini := xs[..|xs| - 1];
      var u := xs[|xs| - 1];
      assert forall i :: 0 <= i < |ini| ==> ini[i] == xs[i];
      FiltrarChavesDistintas(ini, p, chave);
      var r0 := Filtrar(ini, p);
      forall i | 0 <= i < |r0|
        ensures chave(r0[i]) != chave(u)
      {
        assert r0[i] in r0;
        var k :| 0 <= k < |ini| && ini[k] == r0[i];
      }
      var r := Filtrar(xs, p);
      assert r == r0 + (if p(u) then [u] else []);
      forall i, j | 0 <= i < j < |r|
        ensures chave(r[i]) != chave(r[j])
      {
        assert r[i] == r0[i];
        if j < |r0| {
          assert ChavesDistintas(r0, chave);
          assert r[j] == r0[j];
        } else {
          assert r[j] == u;
        }
      }
    }
  }

  /** Where query(T).get(alvo) finds its row: the first row whose key is alvo, none exactly when no row has it. */
  function IndicePorId<T>(xs: seq<T>, id: T -> int, alvo: int): (k: Option<nat>)
    ensures k.Some? ==> k.value < |xs| && id(xs[k.value]) == alvo
    ensures k.None? <==> forall i :: 0 <= i < |xs| ==> id(xs[i]) != alvo
  {
    if xs == [] then None
    else if id(xs[0]) == alvo then Some(0)
    else match IndicePorId(xs[1..], id, alvo)
      case None => None
      case Some(k) => Some(k + 1)
  }

  /** With distinct keys, the lookup of a row's own key finds that row. */
  lemma {:induction false} IndicePorIdUnico<T>(xs: seq<T>, id: T -> int, k: nat)
    requires ChavesDistintas(xs, id) && k < |xs|
    ensures IndicePorId(xs, id, id(xs[k])) == Some(k)
    decreases k
  {
    if k > 0 {
      assert id(xs[0]) != id(xs[k]);
      assert forall i, j :: 0 <= i < j < |xs[1..]| ==> xs[1..][i] == xs[i + 1] && xs[1..][j] == xs[j + 1];
      assert ChavesDistintas(xs[1..], id);
      IndicePorIdUnico(xs[1..], id, k - 1);
      assert xs[1..][k - 1] == xs[k];
    }
  }

  /** Python's sum(f(x) for x in xs), accumulated left to right. */
  function SomaDe<T>(xs: seq<T>, f: T -> real): real
  {
    if xs == [] then 0.0 else SomaDe(xs[..|xs| - 1], f) + f(xs[|xs| - 1])
  }

  lemma SomaDeSnoc<T>(xs: seq<T>, x: T, f: T -> real)
    ensures SomaDe(xs + [x], f) == SomaDe(xs, f) + f(x)
  {
    assert (xs + [x])[..|xs|] == xs;
  }

  lemma {:induction false} SomaDeConcat<T>(xs: seq<T>, ys: seq<T>, f: T -> real)
    ensures SomaDe(xs + ys, f) == SomaDe(xs, f) + SomaDe(ys, f)
    decreases |ys|
  {
    if ys != [] {
      var ini := ys[..|ys| - 1];
      var u := ys[|ys| - 1];
      assert ys == ini + [u];
      assert xs + ys == (xs + ini) + [u];
      SomaDeSnoc(xs + ini, u, f);
      SomaDeSnoc(ini, u, f);
      SomaDeConcat(xs, ini, f);
    } else {
      assert xs + ys == xs;
    }
  }

  /** The largest id of a table, 0 when it is empty: the next autoincrement key is this plus one. */
  function MaiorId<T>(xs: seq<T>, id: T -> int): (m: int)
    ensures m >= 0
    ensures forall i :: 0 <= i < |xs| ==> id(xs[i]) <= m
  {
    if xs == [] then 0
    else
      var m0 := MaiorId(xs[..|xs| - 1], id);
      assert forall i :: 0 <= i < |xs| - 1 ==> xs[i] == xs[..|xs| - 1][i];
      Max(m0, id(xs[|xs| - 1]))
  }
}
