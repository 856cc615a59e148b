/**
 * Comma-separated lines as section 2 of RFC 4180 describes them: a field is
 * either plain text up to the next comma, or enclosed in double quotes with
 * every inner double quote doubled, so that it may itself hold commas.
 */
module Csv {
  import opened Wrappers
  import Texto

  /** The field's text with every double quote doubled. */
  function Escapar(f: string): (r: string)
    decreases |f|
  {
    if f == [] then ""
    else (if f[0] == '"' then "\"\"" else [f[0]]) + Escapar(f[1..])
  }

  /** The field enclosed in double quotes. */
  function Citar(f: string): string {
    "\"" + Escapar(f) + "\""
  }

  /** Every field quoted. */
  function Citados(campos: seq<string>): (r: seq<string>)
    ensures |r| == |campos| && forall k :: 0 <= k < |campos| ==> r[k] == Citar(campos[k])
  {
    seq(|campos|, k requires 0 <= k < |campos| => Citar(campos[k]))
  }

  /**
   * Reads the content of a quoted field from just after its opening quote: a
   * doubled quote stands for one quote, a single quote closes the field.
   * Returns the content and what follows the closing quote; `None` when the
   * field is never closed.
   */
  function LerCitado(s: string): (r: Option<(string, string)>)
    ensures r.Some? ==> |r.value.1| < |s|
    decreases |s|
  {
    if s == [] then None
    else if s[0] == '"' then
      if |s| >= 2 && s[1] == '"' then
        match LerCitado(s[2..])
        case None => None
        case Some(lido) => Some(("\"" + lido.0, lido.1))
      else Some(("", s[1..]))
    else
      match LerCitado(s[1..])
      case None => None
      case Some(lido) => Some(([s[0]] + lido.0, lido.1))
  }

  /** Reads a plain field: the text before the first comma, and the rest from that comma on. */
  function LerSimples(s: string): (r: (string, string))
    ensures r.0 + r.1 == s
    ensures ',' !in r.0 && (r.1 == [] || r.1[0] == ',')
    decreases |s|
  {
    if s == [] || s[0] == ',' then ("", s)
    else
      var lido := LerSimples(s[1..]);
      ([s[0]] + lido.0, lido.1)
  }

  /**
   * Reads one line into its fields. `None` when a quoted field is not closed,
   * or its closing quote is followed by something other than a comma.
   */
  function LerLinha(s: string): Option<seq<string>>
    decreases |s|
  {
    var lido := if s != [] && s[0] == '"' then LerCitado(s[1..]) else Some(LerSimples(s));
    match lido
    case None => None
    case Some(campo) =>
      if campo.1 == [] then Some([campo.0])
      else if campo.1[0] != ',' then None
      else
        match LerLinha(campo.1[1..])
        case None => None
        case Some(resto) => Some([campo.0] + resto)
  }

  /** A quoted field reads back as its text, whatever it holds, when a comma or the line's end follows it. */
  lemma {:induction false} LerCitadoEscapar(f: string, resto: string)
    requires resto == [] || resto[0] == ','
    ensures LerCitado(Escapar(f) + "\"" + resto) == Some((f, resto))
    decreases |f|
  {
    var s := Escapar(f) + "\"" + resto;
    if f == [] {
      assert s == "\"" + resto;
    } else {
      LerCitadoEscapar(f[1..], resto);
      var cauda := Escapar(f[1..]) + "\"" + resto;
      if f[0] == '"' {
        assert s == "\"\"" + cauda;
        assert s[2..] == cauda;
        assert "\"" + f[1..] == f;
      } else {
        assert s == [f[0]] + cauda;
        assert s[1..] == cauda;
        assert [f[0]] + f[1..] == f;
      }
    }
  }

  /** A plain field without commas reads back as itself when a comma or the line's end follows it. */
  lemma {:induction false} LerSimplesAte(f: string, resto: string)
    requires ',' !in f
    requires resto == [] || resto[0] == ','
    ensures LerSimples(f + resto) == (f, resto)
    decreases |f|
  {
    if f == [] {
      assert f + resto == resto;
    } else {
      var s := f + resto;
      assert f == [f[0]] + f[1..];
      assert f[0] in f;
      assert ',' !in f[1..];
      assert s[0] == f[0] && s[0] != ',';
      assert s[1..] == f[1..] + resto;
      LerSimplesAte(f[1..], resto);
      assert LerSimples(s) == ([s[0]] + LerSimples(s[1..]).0, LerSimples(s[1..]).1);
    }
  }

  /** Quoting every field and joining them with commas gives a line that reads back as exactly those fields. */
  lemma {:induction false} LerLinhaCitados(campos: seq<string>)
    requires |campos| >= 1
    ensures LerLinha(Texto.Juntar(Citados(campos), ',')) == Some(campos)
    decreases |campos|
  {
    var c := Citados(campos);
    var s := Texto.Juntar(c, ',');
    if |campos| == 1 {
      assert s == c[0] == Citar(campos[0]);
      assert s == "\"" + (Escapar(campos[0]) + "\"" + "");
      LerCitadoEscapar(campos[0], "");
      assert s[0] == '"';
      assert s[1..] == Escapar(campos[0]) + "\"" + "";
      assert LerCitado(s[1..]) == Some((campos[0], ""));
      assert campos == [campos[0]];
    } else {
      var j := Texto.Juntar(Citados(campos[1..]), ',');
      assert c[1..] == Citados(campos[1..]);
      assert s == "\"" + (Escapar(campos[0]) + "\"" + ([','] + j));
      assert s[1..] == Escapar(campos[0]) + "\"" + ([','] + j);
      LerCitadoEscapar(campos[0], [','] + j);
      assert ([','] + j)[1..] == j;
      LerLinhaCitados(campos[1..]);
      assert [campos[0]] + campos[1..] == campos;
    }
  }

  /** A plain field: no comma and no leading double quote. */
  predicate Simples(f: string) {
    ',' !in f && (f == [] || f[0] != '"')
  }

  /** Plain fields joined with commas read back as exactly those fields. */
  lemma {:induction false} LerLinhaSimples(partes: seq<string>)
    requires |partes| >= 1
    requires forall k :: 0 <= k < |partes| ==> Simples(partes[k])
    ensures LerLinha(Texto.Juntar(partes, ',')) == Some(partes)
    decreases |partes|
  {
    var s := Texto.Juntar(partes, ',');
    if |partes| == 1 {
      LerSimplesAte(partes[0], "");
      assert s == partes[0] + "";
      assert LerSimples(s) == (partes[0], "");
      assert partes == [partes[0]];
    } else {
      var j := Texto.Juntar(partes[1..], ',');
      assert s == partes[0] + ([','] + j);
      LerSimplesAte(partes[0], [','] + j);
      assert ([','] + j)[1..] == j;
      assert s[0] != '"';
      LerLinhaSimples(partes[1..]);
      assert [partes[0]] + partes[1..] == partes;
    }
  }

  /** Quoting adds no character other than the double quote. */
  lemma {:induction false} AusenteEmEscapar(f: string, c: char)
    requires c != '"' && c !in f
    ensures c !in Escapar(f)
    decreases |f|
  {
    if f != [] {
      AusenteEmEscapar(f[1..], c);
    }
  }

  /** A quoted line holds a character other than comma and double quote only if some field does. */
  lemma AusenteEmCitados(campos: seq<string>, c: char)
    requires c != '"' && c != ','
    requires forall k :: 0 <= k < |campos| ==> c !in campos[k]
    ensures c !in Texto.Juntar(Citados(campos), ',')
  {
    forall k | 0 <= k < |campos|
      ensures c !in Citados(campos)[k]
    {
      AusenteEmEscapar(campos[k], c);
    }
    Texto.AusenteEmJuntar(Citados(campos), ',', c);
  }
}
