/**
 * `Array.prototype.filter` and `Array.prototype.find` over sequences, with the
 * facts the dashboard's list rules rest on: a filter keeps exactly the elements
 * its predicate accepts, in their original order, and a find returns the first
 * match.
 */
module Sequencias {
  import opened Wrappers

  /** `s.filter(p)`: scans left to right and appends each accepted element. */
  function Filtrar<T(==)>(p: T -> bool, s: seq<T>): (r: seq<T>)
    ensures |r| <= |s|
    ensures forall x :: x in r ==> x in s && p(x)
    ensures forall i :: 0 <= i < |s| && p(s[i]) ==> s[i] in r
    decreases |s|
  {
    if s == [] then []
    else
      assert s == s[..|s| - 1] + [s[|s| - 1]];
      var r0 := Filtrar(p, s[..|s| - 1]);
      if p(s[|s| - 1]) then r0 + [s[|s| - 1]] else r0
  }

  /** The positions of `s` that `p` accepts, in increasing order. */
  function Selecionados<T>(p: T -> bool, s: seq<T>): seq<nat>
    decreases |s|
  {
    if s == [] then []
    else if p(s[|s| - 1]) then Selecionados(p, s[..|s| - 1]) + [|s| - 1]
    else Selecionados(p, s[..|s| - 1])
  }

  /** The accepted positions are in range, accepted, and strictly increasing. */
  lemma {:induction false} SelecionadosCrescentes<T>(p: T -> bool, s: seq<T>)
    ensures forall k :: 0 <= k < |Selecionados(p, s)| ==>
      Selecionados(p, s)[k] < |s| && p(s[Selecionados(p, s)[k]])
    ensures forall a, b :: 0 <= a < b < |Selecionados(p, s)| ==>
      Selecionados(p, s)[a] < Selecionados(p, s)[b]
    decreases |s|
  {
    if s != [] {
      var n := |s| - 1;
      SelecionadosCrescentes(p, s[..n]);
      var idx0 := Selecionados(p, s[..n]);
      assert forall k :: 0 <= k < |idx0| ==> s[..n][idx0[k]] == s[idx0[k]];
    }
  }

  /** Every accepted position is among the selected ones. */
  lemma {:induction false} SelecionadosCompletos<T>(p: T -> bool, s: seq<T>)
    ensures forall i :: 0 <= i < |s| && p(s[i]) ==> i in Selecionados(p, s)
    decreases |s|
  {
    if s != [] {
      var n := |s| - 1;
      SelecionadosCompletos(p, s[..n]);
      assert forall i :: 0 <= i < n ==> s[..n][i] == s[i];
    }
  }

  /**
   * The filter's result is the input read at the selected positions: with the
   * two lemmas above, an order-preserving subsequence that holds every
   * accepted element and nothing else.
   */
  lemma {:induction false} FiltrarNasPosicoes<T>(p: T -> bool, s: seq<T>)
    ensures |Selecionados(p, s)| == |Filtrar(p, s)|
    ensures forall k :: 0 <= k < |Filtrar(p, s)| ==> Selecionados(p, s)[k] < |s| && Filtrar(p, s)[k] == s[Selecionados(p, s)[k]]
    decreases |s|
  {
    if s != [] {
      var n := |s| - 1;
      FiltrarNasPosicoes(p, s[..n]);
      SelecionadosCrescentes(p, s[..n]);
      var idx0 := Selecionados(p, s[..n]);
      var r0 := Filtrar(p, s[..n]);
      assert forall k :: 0 <= k < |r0| ==> s[..n][idx0[k]] == s[idx0[k]];
    }
  }

  /** `s[idx[0]], s[idx[1]], ...` for strictly increasing positions `idx`: `r` is an order-preserving subsequence of `s`. */
  ghost predicate Subsequencia<T>(r: seq<T>, s: seq<T>, idx: seq<nat>) {
    && |idx| == |r|
    && (forall a, b :: 0 <= a < b < |idx| ==> idx[a] < idx[b])
    && (forall k :: 0 <= k < |idx| ==> idx[k] < |s| && r[k] == s[idx[k]])
  }

  /** The selected positions are exactly the accepted ones, and there are as many as the filter keeps. */
  lemma SelecionadosExatos<T>(p: T -> bool, s: seq<T>)
    ensures |Selecionados(p, s)| == |Filtrar(p, s)|
    ensures forall i :: 0 <= i < |s| ==> (i in Selecionados(p, s) <==> p(s[i]))
  {
    FiltrarNasPosicoes(p, s);
    SelecionadosCrescentes(p, s);
    SelecionadosCompletos(p, s);
    var pos := Selecionados(p, s);
    forall i | 0 <= i < |s| && i in pos
      ensures p(s[i])
    {
      var k :| 0 <= k < |pos| && pos[k] == i;
    }
  }

  /** A filter keeps its input's order: its result is a subsequence of the input. */
  lemma FiltrarSubsequencia<T>(p: T -> bool, s: seq<T>)
    ensures exists idx :: Subsequencia(Filtrar(p, s), s, idx)
  {
    FiltrarNasPosicoes(p, s);
    SelecionadosCrescentes(p, s);
    assert Subsequencia(Filtrar(p, s), s, Selecionados(p, s));
  }

  /** The number of elements of `s` that `p` accepts. */
  function Contar<T(==)>(p: T -> bool, s: seq<T>): nat {
    |Filtrar(p, s)|
  }

  /** Filtering twice is filtering once by the conjunction. */
  lemma {:induction false} FiltrarDuasVezes<T>(p1: T -> bool, p2: T -> bool, q: T -> bool, s: seq<T>)
    requires forall x :: q(x) == (p1(x) && p2(x))
    ensures Filtrar(p2, Filtrar(p1, s)) == Filtrar(q, s)
    decreases |s|
  {
    if s != [] {
      var n := |s| - 1;
      FiltrarDuasVezes(p1, p2, q, s[..n]);
      var r1 := Filtrar(p1, s[..n]);
      if p1(s[n]) {
        assert (r1 + [s[n]])[..|r1 + [s[n]]| - 1] == r1;
      }
    }
  }

  /** Filters by two predicates that agree everywhere give the same result. */
  lemma {:induction false} FiltrarExtensional<T>(p: T -> bool, q: T -> bool, s: seq<T>)
    requires forall x :: p(x) == q(x)
    ensures Filtrar(p, s) == Filtrar(q, s)
    decreases |s|
  {
    if s != [] {
      FiltrarExtensional(p, q, s[..|s| - 1]);
    }
  }

  /** A filter whose predicate accepts everything returns its input. */
  lemma {:induction false} FiltrarTudo<T>(p: T -> bool, s: seq<T>)
    requires forall x :: p(x)
    ensures Filtrar(p, s) == s
    decreases |s|
  {
    if s != [] {
      FiltrarTudo(p, s[..|s| - 1]);
      assert s == s[..|s| - 1] + [s[|s| - 1]];
    }
  }

  /** Two predicates that never hold together count at most |s| elements between them. */
  lemma {:induction false} ContarDisjuntos<T>(p: T -> bool, q: T -> bool, s: seq<T>)
    requires forall x :: !(p(x) && q(x))
    ensures Contar(p, s) + Contar(q, s) <= |s|
    decreases |s|
  {
    if s != [] {
      ContarDisjuntos(p, q, s[..|s| - 1]);
    }
  }

  /** `s.findIndex(p)` as an Option: the first position `p` accepts, if any. */
  function Primeiro<T>(p: T -> bool, s: seq<T>): (r: Option<nat>)
    ensures r.Some? ==> r.value < |s| && p(s[r.value]) && forall j :: 0 <= j < r.value ==> !p(s[j])
    ensures r.None? ==> forall j :: 0 <= j < |s| ==> !p(s[j])
    decreases |s|
  {
    if s == [] then None
    else if p(s[0]) then Some(0)
    else match Primeiro(p, s[1..])
      case None => None
      case Some(k) => Some(k + 1)
  }

  /** `s.find(p)`: the first element `p` accepts, if any. */
  function Encontrar<T>(p: T -> bool, s: seq<T>): (r: Option<T>)
    ensures r.Some? ==> exists i :: 0 <= i < |s| && s[i] == r.value && p(s[i]) && forall j :: 0 <= j < i ==> !p(s[j])
    ensures r.None? <==> forall j :: 0 <= j < |s| ==> !p(s[j])
  {
    match Primeiro(p, s)
    case None => None
    case Some(i) => Some(s[i])
  }
}
