/**
 * The measurement history page (javascript/historico.js): the four filters
 * over the loaded readings, pages of 20 rows with the pager, the CSV export
 * and the `datetime-local` text of the default date range.
 */
module Historico {
  import opened Wrappers
  import opened Registros
  import Texto
  import Js
  import opened Sequencias
  import Csv

  /** `itensPorPagina`. */
  const ItensPorPagina: nat := 20

  // ---------------------------------------------------------------------------
  // Filters
  // ---------------------------------------------------------------------------

  /** The four filter inputs: sensor id, risk level, start and end date (`datetime-local` text). */
  datatype Filtros = Filtros(sensor: string, risco: string, inicio: string, fim: string)

  /** Every input empty, as `limparFiltros` leaves them. */
  const SemFiltros := Filtros("", "", "", "")

  /**
   * The `filter` callback of `aplicarFiltros`, check by check. The sensor
   * input holds `String(sensor.id)` values, so the loose `!=` is a comparison
   * of decimal texts; `datar` is `new Date(text)`, `None` when the text is not
   * a valid date (a NaN date excludes nothing).
   */
  function PassaFiltros(f: Filtros, datar: string -> Option<int>, m: Medicao): bool {
    if f.sensor != "" && Texto.IntParaTexto(m.sensorId) != f.sensor then false
    else if f.risco != "" && m.nivelRisco != Some(f.risco) then false
    else if f.inicio != "" && datar(f.inicio).Some? && m.timestamp < datar(f.inicio).value then false
    else if f.fim != "" && datar(f.fim).Some? && m.timestamp > datar(f.fim).value then false
    else true
  }

  /** The callback as a function value. */
  function Criterio(f: Filtros, datar: string -> Option<int>): Medicao -> bool {
    (m: Medicao) => PassaFiltros(f, datar, m)
  }

  /**
   * A reading is kept iff it meets every non-empty filter: same sensor, equal
   * risk level, not before the start, not after the end.
   */
  lemma PassaFiltrosSeAtende(f: Filtros, datar: string -> Option<int>, m: Medicao)
    ensures PassaFiltros(f, datar, m) <==>
      && (f.sensor == "" || Texto.IntParaTexto(m.sensorId) == f.sensor)
      && (f.risco == "" || m.nivelRisco == Some(f.risco))
      && (f.inicio == "" || datar(f.inicio).None? || datar(f.inicio).value <= m.timestamp)
      && (f.fim == "" || datar(f.fim).None? || m.timestamp <= datar(f.fim).value)
  {
  }

  /**
   * The filtered list is an order-preserving subsequence of all readings that
   * holds exactly the readings passing the filters.
   */
  lemma FiltragemCaracterizada(todas: seq<Medicao>, f: Filtros, datar: string -> Option<int>)
    ensures var r := Filtrar(Criterio(f, datar), todas);
      && (exists idx :: Subsequencia(r, todas, idx))
      && (forall m :: m in r ==> m in todas && PassaFiltros(f, datar, m))
      && (forall i :: 0 <= i < |todas| && PassaFiltros(f, datar, todas[i]) ==> todas[i] in r)
  {
    FiltrarSubsequencia(Criterio(f, datar), todas);
  }

  /** With every input empty nothing is filtered out: clearing equals applying no filter. */
  lemma SemFiltrosMantemTudo(todas: seq<Medicao>, datar: string -> Option<int>)
    ensures Filtrar(Criterio(SemFiltros, datar), todas) == todas
  {
    FiltrarTudo(Criterio(SemFiltros, datar), todas);
  }

  // ---------------------------------------------------------------------------
  // Pages
  // ---------------------------------------------------------------------------

  /** `Math.ceil(n / itensPorPagina)`. */
  function TotalPaginas(n: nat): nat {
    (n + ItensPorPagina - 1) / ItensPorPagina
  }

  /** The page count is the ceiling of n/20: 0 only for no rows, else the last page is non-empty and holds the rest. */
  lemma TotalPaginasTeto(n: nat)
    ensures TotalPaginas(n) == 0 <==> n == 0
    ensures n > 0 ==> (TotalPaginas(n) - 1) * ItensPorPagina < n <= TotalPaginas(n) * ItensPorPagina
  {
  }

  /** `medicoesFiltradas.slice(inicio, inicio + itensPorPagina)` with `inicio = (p - 1) * itensPorPagina`. */
  function ItensPagina(s: seq<Medicao>, p: int): seq<Medicao> {
    var inicio := (p - 1) * ItensPorPagina;
    Js.Fatiar(s, inicio, inicio + ItensPorPagina)
  }

  /** Page p >= 1 shows exactly the rows with index in [(p-1)*20, p*20), hence at most 20. */
  lemma PaginaExata(s: seq<Medicao>, p: int)
    requires p >= 1
    ensures var inicio, r := (p - 1) * ItensPorPagina, ItensPagina(s, p);
      && |r| <= ItensPorPagina
      && (inicio >= |s| ==> r == [])
      && (inicio < |s| ==> r == s[inicio..if p * ItensPorPagina < |s| then p * ItensPorPagina else |s|])
  {
  }

  /** `mudarPagina`: add the direction, raise to 1, then lower to the page count (the last clamp wins). */
  function PaginaApos(p: int, direcao: int, n: nat): int {
    var q := p + direcao;
    var q1 := if q < 1 then 1 else q;
    if q1 > TotalPaginas(n) then TotalPaginas(n) else q1
  }

  /**
   * After a page change the page is in [1, ceil(n/20)] when there are rows,
   * and 0 when there are none; a move that stays in range is taken as is.
   */
  lemma PaginaAposLimites(p: int, direcao: int, n: nat)
    ensures n > 0 ==> 1 <= PaginaApos(p, direcao, n) <= TotalPaginas(n)
    ensures n == 0 ==> PaginaApos(p, direcao, n) == 0
    ensures 1 <= p + direcao <= TotalPaginas(n) ==> PaginaApos(p, direcao, n) == p + direcao
  {
    TotalPaginasTeto(n);
  }

  /** The pager: its info line and whether each button is disabled. */
  datatype Paginacao = Paginacao(info: string, anteriorDesabilitado: bool, proximoDesabilitado: bool)

  /** `atualizarPaginacao` for page `p` of `n` rows. */
  function PaginacaoDe(p: int, n: nat): Paginacao {
    var total := TotalPaginas(n);
    Paginacao(
      "Página " + Texto.IntParaTexto(p) + " de " + Texto.IntParaTexto(total) + " (" + Texto.IntParaTexto(n) + " registros)",
      p == 1,
      p >= total)
  }

  /**
   * On a page in range, Previous is disabled iff it is the first page, and
   * Next iff no row lies beyond the current page.
   */
  lemma BotoesPaginacao(p: int, n: nat)
    requires 1 <= p <= TotalPaginas(n)
    ensures PaginacaoDe(p, n).anteriorDesabilitado <==> p == 1
    ensures PaginacaoDe(p, n).proximoDesabilitado <==> p * ItensPorPagina >= n
  {
    TotalPaginasTeto(n);
    if p < TotalPaginas(n) {
      assert p * ItensPorPagina <= (TotalPaginas(n) - 1) * ItensPorPagina;
    }
  }

  // ---------------------------------------------------------------------------
  // The table
  // ---------------------------------------------------------------------------

  /** The sensor cell (table and CSV): the embedded identifier, or `Sensor <id>`. */
  function RotuloSensor(m: Medicao): string {
    Js.OuTexto(m.identificador, "Sensor " + Texto.IntParaTexto(m.sensorId))
  }

  /** A reading without `nivel_risco`: drawing its row calls `toLowerCase` on undefined and throws. */
  function SemNivel(): Medicao -> bool {
    (m: Medicao) => m.nivelRisco.None?
  }

  /** The rows `forEach` appends before it throws: the page up to its first reading without a level. */
  function Desenhaveis(pagina: seq<Medicao>): (r: seq<Medicao>)
    ensures |r| <= |pagina| && r == pagina[..|r|]
    ensures forall j :: 0 <= j < |r| ==> pagina[j].nivelRisco.Some?
    ensures |r| < |pagina| ==> pagina[|r|].nivelRisco.None?
  {
    match Primeiro(SemNivel(), pagina)
    case None => pagina
    case Some(k) => pagina[..k]
  }

  /** What the table area shows: the no-data panel, the drawn rows, and the pager (untouched until first drawn). */
  datatype Vista = Vista(semDados: bool, linhas: seq<Medicao>, paginacao: Option<Paginacao>)

  /**
   * `renderizarTabela` on the state: with no rows the no-data panel; else the
   * page's rows and the pager, unless a row throws, in which case the rows
   * before it stay drawn, the pager is not updated and `false` reports the
   * error.
   */
  function Renderizar(v: Vista, filtradas: seq<Medicao>, p: int): (Vista, bool) {
    if |filtradas| == 0 then (Vista(true, [], v.paginacao), true)
    else
      var pagina := ItensPagina(filtradas, p);
      var desenhadas := Desenhaveis(pagina);
      if |desenhadas| == |pagina| then (Vista(false, pagina, Some(PaginacaoDe(p, |filtradas|))), true)
      else (Vista(false, desenhadas, v.paginacao), false)
  }

  /**
   * Drawing succeeds iff every reading of the page has a level; the drawn rows
   * are always a prefix of the page, and all of it on success.
   */
  lemma RenderizarCaracterizada(v: Vista, filtradas: seq<Medicao>, p: int)
    requires |filtradas| > 0
    ensures var (w, ok) := Renderizar(v, filtradas, p); var pagina := ItensPagina(filtradas, p);
      && !w.semDados
      && (ok <==> forall j :: 0 <= j < |pagina| ==> pagina[j].nivelRisco.Some?)
      && w.linhas == pagina[..|w.linhas|]
      && (ok ==> w.linhas == pagina && w.paginacao == Some(PaginacaoDe(p, |filtradas|)))
      && (!ok ==> w.paginacao == v.paginacao)
  {
  }

  // ---------------------------------------------------------------------------
  // CSV export
  // ---------------------------------------------------------------------------

  /** The nine column titles. */
  const TitulosCsv: seq<string> := ["Data/Hora", "Sensor", "Umidade Solo (%)", "Temp. Solo (°C)", "Umidade Ar (%)",
    "Temp. Ar (°C)", "Inclinação (°)", "Nível Risco", "Alerta Chuva"]

  /** The header line, without its line break. */
  function Cabecalho(): string {
    Texto.Juntar(TitulosCsv, ',')
  }

  /** `m.campo?.toFixed(2) || ''`, with `fmtNum` standing for `toFixed(2)`. */
  function CampoNumero(o: Option<real>, fmtNum: real -> string): string {
    match o
    case None => ""
    case Some(v) => Js.OuTexto(Some(fmtNum(v)), "")
  }

  /** The nine fields of a reading's line; `fmtData` stands for the locale `formatarData`. */
  function CamposCsv(m: Medicao, fmtData: int -> string, fmtNum: real -> string): (r: seq<string>)
    ensures |r| == |TitulosCsv|
  {
    [fmtData(m.timestamp),
     RotuloSensor(m),
     CampoNumero(m.umidadeSolo, fmtNum),
     CampoNumero(m.temperaturaSolo, fmtNum),
     CampoNumero(m.umidadeAr, fmtNum),
     CampoNumero(m.temperaturaAr, fmtNum),
     CampoNumero(m.inclinacaoGraus, fmtNum),
     m.nivelRisco.GetOr(""),
     if m.alertaChuva then "Sim" else "Não"]
  }

  /** `linha.join(',')`, as the page writes it: fields are joined unquoted. */
  function LinhaCsv(m: Medicao, fmtData: int -> string, fmtNum: real -> string): string {
    Texto.Juntar(CamposCsv(m, fmtData, fmtNum), ',')
  }

  /**
   * A date text with one comma, as the pt-BR `toLocaleString` writes date and
   * time (`14/10/2026, 10:30:00`), turns the unquoted line into ten
   * comma-separated fields under a nine-title header.
   */
  lemma DataComVirgulaDesalinha(m: Medicao, fmtData: int -> string, fmtNum: real -> string, a: string, b: string)
    requires fmtData(m.timestamp) == a + "," + b && ',' !in a && ',' !in b
    requires forall k :: 1 <= k < |TitulosCsv| ==> ',' !in CamposCsv(m, fmtData, fmtNum)[k]
    ensures |Texto.Dividir(LinhaCsv(m, fmtData, fmtNum), ',')| == 10
    ensures |Texto.Dividir(Cabecalho(), ',')| == 9
  {
    CabecalhoLegivel();
    PrimeiroComVirgula(CamposCsv(m, fmtData, fmtNum), a, b);
  }

  /** Joining parts whose first holds one comma and the rest none splits back into one part more. */
  lemma PrimeiroComVirgula(campos: seq<string>, a: string, b: string)
    requires |campos| >= 1 && campos[0] == a + "," + b && ',' !in a && ',' !in b
    requires forall k :: 1 <= k < |campos| ==> ',' !in campos[k]
    ensures |Texto.Dividir(Texto.Juntar(campos, ','), ',')| == |campos| + 1
  {
    var partes := [a, b] + campos[1..];
    assert partes[1..] == [b] + campos[1..];
    assert partes[2..] == campos[1..];
    if |campos| == 1 {
      assert Texto.Juntar(partes, ',') == a + [','] + b;
      assert Texto.Juntar(campos, ',') == a + "," + b;
    } else {
      assert Texto.Juntar(partes, ',') == a + [','] + (b + [','] + Texto.Juntar(campos[1..], ','));
      assert Texto.Juntar(campos, ',') == (a + "," + b) + [','] + Texto.Juntar(campos[1..], ',');
    }
    assert Texto.Juntar(campos, ',') == Texto.Juntar(partes, ',');
    forall k | 0 <= k < |partes|
      ensures ',' !in partes[k]
    {
      if k >= 2 {
        assert partes[k] == campos[k - 1];
      }
    }
    Texto.DividirJuntar(partes, ',');
  }

  /** The reading of the counterexample: sensor `S-07`, level `ALTO`, no measured value. */
  const MedicaoExemplo := Medicao(7, 0, Some("ALTO"), None, None, None, None, None, None, None, None, Some("S-07"), false)

  /** The pt-BR date text `toLocaleString` gives, with its comma between date and time. */
  const DataPtBr: int -> string := (t: int) => "14/10/2026, 10:30:00"

  /** Some number text without a comma. */
  const NumeroFixo: real -> string := (v: real) => "0.00"

  /** The example's fields after the date hold no comma. */
  lemma CamposExemplo()
    ensures CamposCsv(MedicaoExemplo, DataPtBr, NumeroFixo)[0] == "14/10/2026" + "," + " 10:30:00"
    ensures forall k :: 1 <= k < |TitulosCsv| ==> ',' !in CamposCsv(MedicaoExemplo, DataPtBr, NumeroFixo)[k]
  {
    var campos := CamposCsv(MedicaoExemplo, DataPtBr, NumeroFixo);
    assert campos[0] == "14/10/2026, 10:30:00";
    assert campos[1] == "S-07";
    assert campos[2] == "" && campos[3] == "" && campos[4] == "" && campos[5] == "" && campos[6] == "";
    assert campos[7] == "ALTO" && campos[8] == "Não";
  }

  /** With the pt-BR date text the exported line of that reading has ten fields. */
  lemma ExemploDataPtBr()
    ensures |Texto.Dividir(LinhaCsv(MedicaoExemplo, DataPtBr, NumeroFixo), ',')| == 10
  {
    CamposExemplo();
    DataComVirgulaDesalinha(MedicaoExemplo, DataPtBr, NumeroFixo, "14/10/2026", " 10:30:00");
  }

  /** The corrected line: every field quoted as section 2 of RFC 4180 describes, so a comma inside one stays inside it. */
  function LinhaCsvCitada(m: Medicao, fmtData: int -> string, fmtNum: real -> string): string {
    Texto.Juntar(Csv.Citados(CamposCsv(m, fmtData, fmtNum)), ',')
  }

  /** The header reads back as the nine titles, and every corrected line as its reading's nine fields, whatever they hold. */
  lemma LinhaCsvCitadaLegivel(m: Medicao, fmtData: int -> string, fmtNum: real -> string)
    ensures Csv.LerLinha(Cabecalho()) == Some(TitulosCsv) && |TitulosCsv| == 9
    ensures Csv.LerLinha(LinhaCsvCitada(m, fmtData, fmtNum)) == Some(CamposCsv(m, fmtData, fmtNum))
  {
    CabecalhoLegivel();
    Csv.LerLinhaCitados(CamposCsv(m, fmtData, fmtNum));
  }

  /** One corrected line per reading, in order. */
  function LinhasCsv(ms: seq<Medicao>, fmtData: int -> string, fmtNum: real -> string): (r: seq<string>)
    ensures |r| == |ms| && forall i :: 0 <= i < |ms| ==> r[i] == LinhaCsvCitada(ms[i], fmtData, fmtNum)
  {
    seq(|ms|, i requires 0 <= i < |ms| => LinhaCsvCitada(ms[i], fmtData, fmtNum))
  }

  /** The text the `forEach` appends for lines `ls`: each line followed by a line break. */
  function CorpoDeLinhas(ls: seq<string>): string
    decreases |ls|
  {
    if ls == [] then "" else CorpoDeLinhas(ls[..|ls| - 1]) + ls[|ls| - 1] + "\n"
  }

  /** Appending one more line to the text. */
  lemma CorpoDeLinhasAnexar(ls: seq<string>, x: string)
    ensures CorpoDeLinhas(ls + [x]) == CorpoDeLinhas(ls) + x + "\n"
  {
    assert (ls + [x])[..|ls|] == ls;
  }

  /** Appending a line after a prefix text. */
  lemma AnexarLinhaApos(a: string, ls: seq<string>, x: string)
    ensures a + CorpoDeLinhas(ls) + x + "\n" == a + CorpoDeLinhas(ls + [x])
  {
    CorpoDeLinhasAnexar(ls, x);
  }

  /** The lines of a prefix one reading longer. */
  lemma LinhasCsvAnexar(ms: seq<Medicao>, i: nat, fmtData: int -> string, fmtNum: real -> string)
    requires i < |ms|
    ensures LinhasCsv(ms[..i + 1], fmtData, fmtNum) == LinhasCsv(ms[..i], fmtData, fmtNum) + [LinhaCsvCitada(ms[i], fmtData, fmtNum)]
  {
    assert ms[..i + 1][..i] == ms[..i];
  }

  /** A header line and the appended lines are the lines joined by line breaks, plus a final one. */
  lemma {:induction false} CorpoPorLinhas(c: string, ls: seq<string>)
    ensures c + "\n" + CorpoDeLinhas(ls) == Texto.Juntar([c] + ls, '\n') + "\n"
    decreases |ls|
  {
    if ls != [] {
      var n := |ls| - 1;
      CorpoPorLinhas(c, ls[..n]);
      assert [c] + ls == ([c] + ls[..n]) + [ls[n]];
      Texto.JuntarAnexar([c] + ls[..n], ls[n], '\n');
    }
  }

  /** Text built that way splits back, at line breaks, into its lines and a final empty one. */
  lemma CorpoLegivel(c: string, ls: seq<string>)
    requires '\n' !in c && forall k :: 0 <= k < |ls| ==> '\n' !in ls[k]
    ensures Texto.Dividir(c + "\n" + CorpoDeLinhas(ls), '\n') == [c] + ls + [""]
  {
    CorpoPorLinhas(c, ls);
    var partes := [c] + ls;
    Texto.JuntarAnexar(partes, "", '\n');
    assert Texto.Juntar(partes, '\n') + "\n" == Texto.Juntar(partes, '\n') + ['\n'] + "";
    forall k | 0 <= k < |partes + [""]|
      ensures '\n' !in (partes + [""])[k]
    {
      if 1 <= k <= |ls| {
        assert (partes + [""])[k] == ls[k - 1];
      }
    }
    Texto.DividirJuntar(partes + [""], '\n');
  }

  /** No field of a reading's line holds `c`. */
  ghost predicate CamposSem(m: Medicao, fmtData: int -> string, fmtNum: real -> string, c: char) {
    forall k :: 0 <= k < |TitulosCsv| ==> c !in CamposCsv(m, fmtData, fmtNum)[k]
  }

  /** The header splits at commas into the nine titles and holds no line break. */
  lemma CabecalhoLegivel()
    ensures Texto.Dividir(Cabecalho(), ',') == TitulosCsv && |TitulosCsv| == 9
    ensures '\n' !in Cabecalho()
    ensures Csv.LerLinha(Cabecalho()) == Some(TitulosCsv)
  {
    assert forall k :: 0 <= k < |TitulosCsv| ==> ',' !in TitulosCsv[k] && '\n' !in TitulosCsv[k];
    assert forall k :: 0 <= k < |TitulosCsv| ==> Csv.Simples(TitulosCsv[k]);
    Csv.LerLinhaSimples(TitulosCsv);
    Texto.DividirJuntar(TitulosCsv, ',');
    Texto.AusenteEmJuntar(TitulosCsv, ',', '\n');
  }

  /**
   * When no field holds a line break, the corrected CSV reads back: split by
   * lines it is the header, one line per reading and a final empty line; each
   * line read as RFC 4180 fields gives its reading's nine fields, and the
   * header the nine titles.
   */
  lemma CsvLegivel(ms: seq<Medicao>, fmtData: int -> string, fmtNum: real -> string)
    requires forall i :: 0 <= i < |ms| ==> CamposSem(ms[i], fmtData, fmtNum, '\n')
    ensures Texto.Dividir(Cabecalho() + "\n" + CorpoDeLinhas(LinhasCsv(ms, fmtData, fmtNum)), '\n') ==
      [Cabecalho()] + LinhasCsv(ms, fmtData, fmtNum) + [""]
    ensures Csv.LerLinha(Cabecalho()) == Some(TitulosCsv)
    ensures forall i :: 0 <= i < |ms| ==>
      Csv.LerLinha(LinhasCsv(ms, fmtData, fmtNum)[i]) == Some(CamposCsv(ms[i], fmtData, fmtNum))
  {
    CabecalhoLegivel();
    var ls := LinhasCsv(ms, fmtData, fmtNum);
    forall i | 0 <= i < |ms|
      ensures Csv.LerLinha(ls[i]) == Some(CamposCsv(ms[i], fmtData, fmtNum)) && '\n' !in ls[i]
    {
      LinhaCsvCitadaLegivel(ms[i], fmtData, fmtNum);
      Csv.AusenteEmCitados(CamposCsv(ms[i], fmtData, fmtNum), '\n');
    }
    CorpoLegivel(Cabecalho(), ls);
  }

  // ---------------------------------------------------------------------------
  // Default dates
  // ---------------------------------------------------------------------------

  /** The local calendar fields `getFullYear`, `getMonth` (0-based), `getDate`, `getHours`, `getMinutes`. */
  datatype PartesData = PartesData(ano: int, mes0: int, dia: int, hora: int, minuto: int)

  /** `String(n).padStart(2, '0')`. */
  function Pad2(n: int): string {
    var s := Texto.IntParaTexto(n);
    if |s| < 2 then "0" + s else s
  }

  /** A number below 100 pads to two digits that read back as the number. */
  lemma Pad2Leitura(n: int)
    requires 0 <= n < 100
    ensures |Pad2(n)| == 2 && Texto.SoDigitos(Pad2(n)) && Texto.ValorDecimal(Pad2(n)) == n
  {
    Texto.TamanhoNatParaTexto(n);
    Texto.ValorDeNatParaTexto(n);
    if n < 10 {
      Texto.ValorComZeroInicial(Texto.NatParaTexto(n));
    }
  }

  /** `formatarDataInput`: `YYYY-MM-DDTHH:MM` with the month 1-based. */
  function FormatarDataInput(d: PartesData): string {
    Texto.IntParaTexto(d.ano) + "-" + Pad2(d.mes0 + 1) + "-" + Pad2(d.dia) + "T" + Pad2(d.hora) + ":" + Pad2(d.minuto)
  }

  /** Where the five groups of a text built as `a-b-cTd:e` sit, for a four-character `a` and two-character rest. */
  lemma PosicoesDataInput(a: string, b: string, c: string, d: string, e: string)
    requires |a| == 4 && |b| == 2 && |c| == 2 && |d| == 2 && |e| == 2
    ensures var r := a + "-" + b + "-" + c + "T" + d + ":" + e;
      && |r| == 16 && r[4] == '-' && r[7] == '-' && r[10] == 'T' && r[13] == ':'
      && r[..4] == a && r[5..7] == b && r[8..10] == c && r[11..13] == d && r[14..16] == e
  {
  }

  /**
   * For a four-digit year and in-range fields the text is 16 characters with
   * the separators at 4, 7, 10 and 13, and each digit group reads back as its
   * field (the month as `getMonth() + 1`).
   */
  lemma FormatarDataInputLeitura(d: PartesData)
    requires 1000 <= d.ano <= 9999 && 0 <= d.mes0 <= 11 && 1 <= d.dia <= 31
    requires 0 <= d.hora <= 23 && 0 <= d.minuto <= 59
    ensures var r := FormatarDataInput(d);
      && |r| == 16 && r[4] == '-' && r[7] == '-' && r[10] == 'T' && r[13] == ':'
      && Texto.SoDigitos(r[..4]) && Texto.ValorDecimal(r[..4]) == d.ano
      && Texto.SoDigitos(r[5..7]) && Texto.ValorDecimal(r[5..7]) == d.mes0 + 1
      && Texto.SoDigitos(r[8..10]) && Texto.ValorDecimal(r[8..10]) == d.dia
      && Texto.SoDigitos(r[11..13]) && Texto.ValorDecimal(r[11..13]) == d.hora
      && Texto.SoDigitos(r[14..16]) && Texto.ValorDecimal(r[14..16]) == d.minuto
  {
    Texto.TamanhoNatParaTexto(d.ano);
    Texto.ValorDeNatParaTexto(d.ano);
    Pad2Leitura(d.mes0 + 1);
    Pad2Leitura(d.dia);
    Pad2Leitura(d.hora);
    Pad2Leitura(d.minuto);
    PosicoesDataInput(Texto.IntParaTexto(d.ano), Pad2(d.mes0 + 1), Pad2(d.dia), Pad2(d.hora), Pad2(d.minuto));
  }

  /** One day in milliseconds (`24 * 60 * 60 * 1000`). */
  const UmDia: int := 24 * 60 * 60 * 1000

  // ---------------------------------------------------------------------------
  // The page state
  // ---------------------------------------------------------------------------

  /** The page's globals and what it shows. */
  class Historico {
    /** `todasMedicoes`; `None` once a load has assigned it something that is not an array. */
    var todasMedicoes: Option<seq<Medicao>>
    var medicoesFiltradas: seq<Medicao>
    var paginaAtual: int
    /** The values of the four filter inputs. */
    var filtros: Filtros
    var vista: Vista
    /** The loading indicator is shown. */
    var carregando: bool
    /** The loading indicator holds the error message. */
    var erroCarga: bool

    /** The globals as declared. */
    constructor ()
      ensures todasMedicoes == Some([]) && medicoesFiltradas == [] && paginaAtual == 1
      ensures filtros == SemFiltros && vista == Vista(false, [], None) && !carregando && !erroCarga
    {
      todasMedicoes, medicoesFiltradas, paginaAtual := Some([]), [], 1;
      filtros := SemFiltros;
      vista := Vista(false, [], None);
      carregando, erroCarga := false, false;
    }

    /** `renderizarTabela`: draws the current page row by row; `false` when a row throws. */
    method RenderizarTabela() returns (ok: bool)
      modifies this
      ensures (vista, ok) == Renderizar(old(vista), medicoesFiltradas, paginaAtual)
      ensures todasMedicoes == old(todasMedicoes) && medicoesFiltradas == old(medicoesFiltradas)
      ensures paginaAtual == old(paginaAtual) && filtros == old(filtros)
      ensures carregando == old(carregando) && erroCarga == old(erroCarga)
    {
      if |medicoesFiltradas| == 0 {
        vista := Vista(true, [], vista.paginacao);
        return true;
      }
      var pagina := ItensPagina(medicoesFiltradas, paginaAtual);
      var linhas: seq<Medicao> := [];
      var i := 0;
      while i < |pagina| && pagina[i].nivelRisco.Some?
        invariant 0 <= i <= |pagina|
        invariant linhas == pagina[..i]
        invariant forall j :: 0 <= j < i ==> pagina[j].nivelRisco.Some?
      {
        linhas := linhas + [pagina[i]];
        i := i + 1;
      }
      var desenhadas := Desenhaveis(pagina);
      assert |desenhadas| >= i;
      assert |desenhadas| <= i;
      if i == |pagina| {
        assert linhas == pagina;
        vista := Vista(false, linhas, Some(PaginacaoDe(paginaAtual, |medicoesFiltradas|)));
        ok := true;
      } else {
        vista := Vista(false, linhas, vista.paginacao);
        ok := false;
      }
    }

    /**
     * `carregarMedicoes` with what `buscarMedicoesRecentes(500)` resolved to
     * (`None` when it is not an array, such as the `undefined` of a successful
     * body without `data`): `todasMedicoes` is assigned first in every case;
     * then the spread copies it into the filtered list and the table is
     * drawn, or, on a non-array, throws and the indicator shows the error
     * message.
     */
    method CarregarMedicoes(dados: Option<seq<Medicao>>)
      modifies this
      ensures todasMedicoes == dados
      ensures dados.None? ==> (carregando && erroCarga && vista == old(vista)
        && medicoesFiltradas == old(medicoesFiltradas))
      ensures dados.Some? ==> (medicoesFiltradas == dados.value
        && vista == Renderizar(old(vista), dados.value, old(paginaAtual)).0
        && carregando == !Renderizar(old(vista), dados.value, old(paginaAtual)).1
        && erroCarga == (old(erroCarga) || !Renderizar(old(vista), dados.value, old(paginaAtual)).1))
      ensures paginaAtual == old(paginaAtual) && filtros == old(filtros)
    {
      carregando := true;
      todasMedicoes := dados;
      if dados.None? {
        erroCarga := true;
        return;
      }
      medicoesFiltradas := dados.value;
      var ok := RenderizarTabela();
      if ok {
        carregando := false;
      } else {
        erroCarga := true;
      }
    }

    /**
     * `aplicarFiltros`: the filtered list is the readings passing the current
     * inputs, the page goes back to 1 and the table is redrawn. When
     * `todasMedicoes` is not an array, `.filter` throws (`lancou`) and nothing
     * changes.
     */
    method AplicarFiltros(datar: string -> Option<int>) returns (lancou: bool)
      modifies this
      ensures lancou <==> todasMedicoes.None?
      ensures lancou ==> medicoesFiltradas == old(medicoesFiltradas) && paginaAtual == old(paginaAtual) && vista == old(vista)
      ensures !lancou ==> (medicoesFiltradas == Filtrar(Criterio(filtros, datar), todasMedicoes.value)
        && paginaAtual == 1 && vista == Renderizar(old(vista), medicoesFiltradas, 1).0)
      ensures todasMedicoes == old(todasMedicoes) && filtros == old(filtros)
      ensures carregando == old(carregando) && erroCarga == old(erroCarga)
    {
      if todasMedicoes.None? {
        return true;
      }
      medicoesFiltradas := Filtrar(Criterio(filtros, datar), todasMedicoes.value);
      paginaAtual := 1;
      var _ := RenderizarTabela();
      lancou := false;
    }

    /**
     * `limparFiltros`: empty inputs, all readings, page 1, table redrawn. The
     * inputs are cleared first, so when `todasMedicoes` is not an array the
     * spread throws (`lancou`) after that and nothing else changes.
     */
    method LimparFiltros() returns (lancou: bool)
      modifies this
      ensures lancou <==> todasMedicoes.None?
      ensures filtros == SemFiltros
      ensures lancou ==> medicoesFiltradas == old(medicoesFiltradas) && paginaAtual == old(paginaAtual) && vista == old(vista)
      ensures !lancou ==> (medicoesFiltradas == todasMedicoes.value && paginaAtual == 1
        && vista == Renderizar(old(vista), todasMedicoes.value, 1).0)
      ensures todasMedicoes == old(todasMedicoes)
      ensures carregando == old(carregando) && erroCarga == old(erroCarga)
    {
      filtros := SemFiltros;
      if todasMedicoes.None? {
        return true;
      }
      medicoesFiltradas := todasMedicoes.value;
      paginaAtual := 1;
      var _ := RenderizarTabela();
      lancou := false;
    }

    /** `mudarPagina`: the clamped page, then the table redrawn. */
    method MudarPagina(direcao: int)
      modifies this
      ensures paginaAtual == PaginaApos(old(paginaAtual), direcao, |medicoesFiltradas|)
      ensures vista == Renderizar(old(vista), medicoesFiltradas, paginaAtual).0
      ensures todasMedicoes == old(todasMedicoes) && medicoesFiltradas == old(medicoesFiltradas)
      ensures filtros == old(filtros) && carregando == old(carregando) && erroCarga == old(erroCarga)
    {
      var totalPaginas := TotalPaginas(|medicoesFiltradas|);
      paginaAtual := paginaAtual + direcao;
      if paginaAtual < 1 {
        paginaAtual := 1;
      }
      if paginaAtual > totalPaginas {
        paginaAtual := totalPaginas;
      }
      var _ := RenderizarTabela();
    }

    /**
     * `exportarCSV`: nothing for an empty list, else the header line and one
     * line per filtered reading, appended in a loop. Each line is the quoted
     * `LinhaCsvCitada`, the corrected form of the source's unquoted
     * `linha.join(',')` (`LinhaCsv`).
     */
    method ExportarCsv(fmtData: int -> string, fmtNum: real -> string) returns (csv: Option<string>)
      ensures |medicoesFiltradas| == 0 ==> csv.None?
      ensures |medicoesFiltradas| > 0 ==> csv == Some(Cabecalho() + "\n" + CorpoDeLinhas(LinhasCsv(medicoesFiltradas, fmtData, fmtNum)))
    {
      if |medicoesFiltradas| == 0 {
        return None;
      }
      var cabecalho := Cabecalho() + "\n";
      var texto := cabecalho;
      var i := 0;
      while i < |medicoesFiltradas|
        invariant 0 <= i <= |medicoesFiltradas|
        invariant texto == cabecalho + CorpoDeLinhas(LinhasCsv(medicoesFiltradas[..i], fmtData, fmtNum))
      {
        var linha := LinhaCsvCitada(medicoesFiltradas[i], fmtData, fmtNum);
        LinhasCsvAnexar(medicoesFiltradas, i, fmtData, fmtNum);
        AnexarLinhaApos(cabecalho, LinhasCsv(medicoesFiltradas[..i], fmtData, fmtNum), linha);
        texto := texto + linha + "\n";
        i := i + 1;
      }
      assert medicoesFiltradas[..i] == medicoesFiltradas;
      csv := Some(texto);
    }

    /**
     * `configurarDatasDefault`: the end input gets now and the start input the
     * instant 24 h earlier, both as `datetime-local` text; `partes` is the
     * local calendar decomposition of an instant.
     */
    method ConfigurarDatasDefault(agora: int, partes: int -> PartesData)
      modifies this
      ensures filtros == old(filtros).(inicio := FormatarDataInput(partes(agora - UmDia)), fim := FormatarDataInput(partes(agora)))
      ensures todasMedicoes == old(todasMedicoes) && medicoesFiltradas == old(medicoesFiltradas)
      ensures paginaAtual == old(paginaAtual) && vista == old(vista)
      ensures carregando == old(carregando) && erroCarga == old(erroCarga)
    {
      var ontem := agora - UmDia;
      filtros := filtros.(fim := FormatarDataInput(partes(agora)));
      filtros := filtros.(inicio := FormatarDataInput(partes(ontem)));
    }
  }
}
