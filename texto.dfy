/**
 * The string operations the dashboard relies on: decimal rendering of numbers
 * (`String(n)`), case mapping, `includes`, `replace(/x/g, y)`, `split` and `join`.
 */
module Texto {

  /** True iff every character of `s` is a decimal digit. */
  predicate SoDigitos(s: string) {
    forall i :: 0 <= i < |s| ==> '0' <= s[i] <= '9'
  }

  /** The digit character for `d`. */
  function Digito(d: nat): (c: char)
    requires d < 10
    ensures '0' <= c <= '9' && c as int - '0' as int == d
  {
    ('0' as int + d) as char
  }

  /** Decimal rendering of a natural number, without leading zeros, as `String(n)` gives it. */
  function NatParaTexto(n: nat): (s: string)
    ensures |s| >= 1 && SoDigitos(s)
    ensures s[0] == '0' ==> n == 0
    decreases n
  {
    if n < 10 then [Digito(n)] else NatParaTexto(n / 10) + [Digito(n % 10)]
  }

  /** Decimal rendering of an integer, with a leading '-' when it is negative. */
  function IntParaTexto(i: int): (s: string)
    ensures |s| >= 1
    ensures i >= 0 ==> s == NatParaTexto(i)
    ensures i < 0 ==> s == "-" + NatParaTexto(-i)
  {
    if i < 0 then "-" + NatParaTexto(-i) else NatParaTexto(i)
  }

  /** The number a string of digits denotes (most significant digit first). */
  function ValorDecimal(s: string): nat
    requires SoDigitos(s)
    decreases |s|
  {
    if s == [] then 0 else 10 * ValorDecimal(s[..|s| - 1]) + (s[|s| - 1] as int - '0' as int)
  }

  /** Reading back the rendering of `n` gives `n`. */
  lemma {:induction false} ValorDeNatParaTexto(n: nat)
    ensures ValorDecimal(NatParaTexto(n)) == n
    decreases n
  {
    if n >= 10 {
      ValorDeNatParaTexto(n / 10);
      var s := NatParaTexto(n);
      assert s[..|s| - 1] == NatParaTexto(n / 10);
    }
  }

  /** The number of characters `String(n)` produces for numbers below 10000. */
  lemma {:induction false} TamanhoNatParaTexto(n: nat)
    ensures n < 10 ==> |NatParaTexto(n)| == 1
    ensures 10 <= n < 100 ==> |NatParaTexto(n)| == 2
    ensures 100 <= n < 1000 ==> |NatParaTexto(n)| == 3
    ensures 1000 <= n < 10000 ==> |NatParaTexto(n)| == 4
    decreases n
  {
    if n >= 10 {
      TamanhoNatParaTexto(n / 10);
    }
  }

  /** A leading '0' does not change the number a digit string denotes. */
  lemma {:induction false} ValorComZeroInicial(s: string)
    requires SoDigitos(s)
    ensures SoDigitos("0" + s) && ValorDecimal("0" + s) == ValorDecimal(s)
    decreases |s|
  {
    if s != [] {
      var t := "0" + s;
      assert t[..|t| - 1] == "0" + s[..|s| - 1];
      ValorComZeroInicial(s[..|s| - 1]);
    }
  }

  // ---------------------------------------------------------------------------
  // Case mapping
  // ---------------------------------------------------------------------------

  /** `toLowerCase` on one character, for the ASCII range. */
  function MinusculaChar(c: char): char {
    if 'A' <= c <= 'Z' then (c as int + 32) as char else c
  }

  /**
   * `toUpperCase` on one character: the ASCII letters, and the two non-ASCII
   * letters whose upper case is a single ASCII letter (dotless i and long s).
   */
  function MaiusculaChar(c: char): char {
    if 'a' <= c <= 'z' then (c as int - 32) as char
    else if c == 'ı' then 'I'
    else if c == 'ſ' then 'S'
    else c
  }

  /** `s.toLowerCase()`. */
  function Minusculas(s: string): (r: string)
    ensures |r| == |s|
    ensures forall i :: 0 <= i < |s| ==> r[i] == MinusculaChar(s[i])
    decreases |s|
  {
    if s == [] then [] else [MinusculaChar(s[0])] + Minusculas(s[1..])
  }

  /** `s.toUpperCase()`. */
  function Maiusculas(s: string): (r: string)
    ensures |r| == |s|
    ensures forall i :: 0 <= i < |s| ==> r[i] == MaiusculaChar(s[i])
    decreases |s|
  {
    if s == [] then [] else [MaiusculaChar(s[0])] + Maiusculas(s[1..])
  }

  /** Text already in upper-case ASCII letters is left as it is. */
  lemma MaiusculasFixas(s: string)
    requires forall i :: 0 <= i < |s| ==> 'A' <= s[i] <= 'Z'
    ensures Maiusculas(s) == s
  {
    var r := Maiusculas(s);
    assert forall i :: 0 <= i < |s| ==> r[i] == s[i];
  }

  // ---------------------------------------------------------------------------
  // Substrings
  // ---------------------------------------------------------------------------

  /** `t` occurs in `s` starting at position `i`. */
  predicate OcorreEm(s: string, t: string, i: int) {
    0 <= i && i + |t| <= |s| && s[i..i + |t|] == t
  }

  /** `s.includes(t)`, scanning from the left. */
  predicate Contem(s: string, t: string)
    decreases |s|
  {
    (|t| <= |s| && s[..|t|] == t) || (|s| > 0 && Contem(s[1..], t))
  }

  /** `includes` holds exactly when `t` occurs at some position of `s`. */
  lemma {:induction false} ContemSeOcorre(s: string, t: string)
    ensures Contem(s, t) <==> exists i :: OcorreEm(s, t, i)
    decreases |s|
  {
    if |t| <= |s| && s[..|t|] == t {
      assert OcorreEm(s, t, 0);
    } else if |s| > 0 {
      ContemSeOcorre(s[1..], t);
      if Contem(s[1..], t) {
        var i :| OcorreEm(s[1..], t, i);
        assert s[1..][i..i + |t|] == s[i + 1..i + 1 + |t|];
        assert OcorreEm(s, t, i + 1);
      } else {
        forall i | OcorreEm(s, t, i)
          ensures false
        {
          assert i != 0;
          assert s[1..][i - 1..i - 1 + |t|] == s[i..i + |t|];
          assert OcorreEm(s[1..], t, i - 1);
        }
      }
    } else {
      assert |t| > 0;
      forall i | OcorreEm(s, t, i)
        ensures false
      {
      }
    }
  }

  // ---------------------------------------------------------------------------
  // Replace, split and join
  // ---------------------------------------------------------------------------

  /** `s.replace(/de/g, para)` for a one-character pattern. */
  function Substituir(s: string, de: char, para: char): (r: string)
    ensures |r| == |s|
    ensures forall i :: 0 <= i < |s| ==> r[i] == (if s[i] == de then para else s[i])
    decreases |s|
  {
    if s == [] then [] else [if s[0] == de then para else s[0]] + Substituir(s[1..], de, para)
  }

  /** `partes.join(sep)`. */
  function Juntar(partes: seq<string>, sep: char): string
    decreases |partes|
  {
    if |partes| == 0 then ""
    else if |partes| == 1 then partes[0]
    else partes[0] + [sep] + Juntar(partes[1..], sep)
  }

  /** Joining one more part appends the separator and that part. */
  lemma {:induction false} JuntarAnexar(partes: seq<string>, x: string, sep: char)
    requires |partes| >= 1
    ensures Juntar(partes + [x], sep) == Juntar(partes, sep) + [sep] + x
    decreases |partes|
  {
    if |partes| == 1 {
      assert partes + [x] == [partes[0], x];
      assert [partes[0], x][1..] == [x];
    } else {
      assert (partes + [x])[1..] == partes[1..] + [x];
      JuntarAnexar(partes[1..], x, sep);
    }
  }

  /** A character other than the separator occurs in a join only if it occurs in a part. */
  lemma {:induction false} AusenteEmJuntar(partes: seq<string>, sep: char, c: char)
    requires c != sep
    requires forall k :: 0 <= k < |partes| ==> c !in partes[k]
    ensures c !in Juntar(partes, sep)
    decreases |partes|
  {
    if |partes| > 1 {
      AusenteEmJuntar(partes[1..], sep, c);
      assert forall k :: 0 <= k < |partes[1..]| ==> partes[1..][k] == partes[k + 1];
    }
  }

  /** `s.split(sep)` for a one-character separator: always at least one part. */
  function Dividir(s: string, sep: char): (r: seq<string>)
    ensures |r| >= 1
    decreases |s|
  {
    if s == [] then [""]
    else if s[0] == sep then [""] + Dividir(s[1..], sep)
    else
      var resto := Dividir(s[1..], sep);
      [[s[0]] + resto[0]] + resto[1..]
  }

  /** Splitting a text that starts with a separator-free part `a`. */
  lemma {:induction false} DividirComPrefixo(a: string, resto: string, sep: char)
    requires sep !in a
    ensures Dividir(a + resto, sep) == [a + Dividir(resto, sep)[0]] + Dividir(resto, sep)[1..]
    decreases |a|
  {
    if a != [] {
      var d := Dividir(resto, sep);
      assert (a + resto)[0] == a[0] != sep;
      assert (a + resto)[1..] == a[1..] + resto;
      DividirComPrefixo(a[1..], resto, sep);
      var r := Dividir(a[1..] + resto, sep);
      assert r[0] == a[1..] + d[0] && r[1..] == d[1..];
      assert [a[0]] + (a[1..] + d[0]) == a + d[0];
    } else {
      var r := Dividir(resto, sep);
      assert a + resto == resto && a + r[0] == r[0];
      assert r == [r[0]] + r[1..];
    }
  }

  /** `join` then `split` with the same separator gives the parts back when no part holds it. */
  lemma {:induction false} DividirJuntar(partes: seq<string>, sep: char)
    requires |partes| >= 1
    requires forall k :: 0 <= k < |partes| ==> sep !in partes[k]
    ensures Dividir(Juntar(partes, sep), sep) == partes
    decreases |partes|
  {
    if |partes| == 1 {
      DividirComPrefixo(partes[0], "", sep);
      assert partes[0] + "" == partes[0];
    } else {
      var cauda := Juntar(partes[1..], sep);
      DividirJuntar(partes[1..], sep);
      assert partes[0] + [sep] + cauda == partes[0] + ([sep] + cauda);
      DividirComPrefixo(partes[0], [sep] + cauda, sep);
      assert ([sep] + cauda)[1..] == cauda;
      assert Dividir([sep] + cauda, sep) == [""] + partes[1..];
      assert partes[0] + "" == partes[0];
      assert partes == [partes[0]] + partes[1..];
    }
  }
}
