/**
 * The JavaScript value rules the dashboard's decisions depend on: which values
 * are falsy for `||` (missing, the empty string, the number 0), which are
 * nullish for `??` (only missing), and `Array.prototype.slice` with its
 * negative positions.
 */
module Js {
  import opened Wrappers

  /** A possibly missing string is truthy iff it is present and non-empty. */
  predicate TextoVerdadeiro(o: Option<string>) {
    o.Some? && o.value != ""
  }

  /** `o || padrao` for a possibly missing string. */
  function OuTexto(o: Option<string>, padrao: string): (r: string)
    ensures TextoVerdadeiro(o) ==> r == o.value
    ensures !TextoVerdadeiro(o) ==> r == padrao
  {
    if TextoVerdadeiro(o) then o.value else padrao
  }

  /** `a || b` where both operands are possibly missing strings. */
  function OuOpcao(a: Option<string>, b: Option<string>): (r: Option<string>)
    ensures TextoVerdadeiro(a) ==> r == a
    ensures !TextoVerdadeiro(a) ==> r == b
  {
    if TextoVerdadeiro(a) then a else b
  }

  /** A possibly missing number is truthy iff it is present and not 0. */
  predicate NumeroVerdadeiro(o: Option<real>) {
    o.Some? && o.value != 0.0
  }

  /** `o || padrao` for a possibly missing number: a stored 0 is replaced too. */
  function OuNumero(o: Option<real>, padrao: real): (r: real)
    ensures NumeroVerdadeiro(o) ==> r == o.value
    ensures !NumeroVerdadeiro(o) ==> r == padrao
  {
    if NumeroVerdadeiro(o) then o.value else padrao
  }

  /** `o ?? padrao`: only a missing value is replaced, a 0 is kept. */
  function Coalescer(o: Option<real>, padrao: real): (r: real)
    ensures o.Some? ==> r == o.value
    ensures o.None? ==> r == padrao
  {
    o.GetOr(padrao)
  }

  /** The position `slice` starts or stops at: negative counts from the end, then clamped to [0, n]. */
  function PosicaoRelativa(k: int, n: nat): (r: nat)
    ensures r <= n
    ensures 0 <= k <= n ==> r == k
  {
    if k < 0 then (if n + k < 0 then 0 else n + k) else if k > n then n else k
  }

  /** `s.slice(inicio, fim)`. */
  function Fatiar<T>(s: seq<T>, inicio: int, fim: int): seq<T> {
    var a, b := PosicaoRelativa(inicio, |s|), PosicaoRelativa(fim, |s|);
    if a <= b then s[a..b] else []
  }
}
