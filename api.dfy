/**
 * The risk panel of the public dashboard (javascript/api.js): the
 * recommendation table, the latest reading and the values taken from it, and
 * the status text, blinking, index bar and recommendation the renderer writes.
 *
 * `atualizarDashboard` is declared three times in the file; the last
 * declaration, the renderer taking `dados`, is the one every call reaches.
 */
module PainelRisco {
  import opened Wrappers
  import opened Registros
  import Texto
  import Js

  // ---------------------------------------------------------------------------
  // Recommendations
  // ---------------------------------------------------------------------------

  /** The five entries of the `recomendacoes` table. */
  datatype Recomendacao = RecCritico | RecAlto | RecMedio | RecBaixo | RecDesconhecido

  /** The symbol each text opens with. */
  function Marca(r: Recomendacao): char {
    match r
    case RecCritico => '\U{1F6A8}'
    case RecAlto => '\U{26A0}'
    case RecMedio => '\U{26A1}'
    case RecBaixo => '\U{2705}'
    case RecDesconhecido => '\U{2753}'
  }

  /** The text of each entry: its symbol, then the message. */
  function TextoRecomendacao(r: Recomendacao): string {
    [Marca(r)] +
    match r
    case RecCritico => " ALERTA CRÍTICO! Erosão severa. Ações imediatas necessárias."
    case RecAlto => "\U{FE0F} Risco Alto. Implemente medidas de proteção urgentemente."
    case RecMedio => " Risco Médio. Monitore e implemente proteção preventiva."
    case RecBaixo => " Situação normal. Continue monitorando."
    case RecDesconhecido => " Dados insuficientes para análise."
  }

  /**
   * The entry `recomendacoes[nivelRisco] || recomendacoes.DESCONHECIDO`
   * picks; a missing level looks up the key `undefined`. Names the object
   * inherits from `Object.prototype` (`constructor`, `toString`, ...) are
   * taken as absent keys, which the lookup in the source does not do.
   */
  function EntradaRecomendacao(nivel: Option<string>): Recomendacao {
    match nivel
    case None => RecDesconhecido
    case Some(k) =>
      if k == "CRITICO" then RecCritico
      else if k == "ALTO" then RecAlto
      else if k == "MEDIO" then RecMedio
      else if k == "BAIXO" then RecBaixo
      else RecDesconhecido
  }

  /** `obterRecomendacao`. */
  function ObterRecomendacao(nivel: Option<string>): string {
    TextoRecomendacao(EntradaRecomendacao(nivel))
  }

  /** Every text opens with its entry's symbol. */
  lemma MarcaInicial(r: Recomendacao)
    ensures |TextoRecomendacao(r)| > 0 && TextoRecomendacao(r)[0] == Marca(r)
  {
    var texto := TextoRecomendacao(r);
    var resto := texto[1..];
    assert texto == [Marca(r)] + resto;
  }

  /** No two entries share a symbol. */
  lemma MarcasDistintas(a: Recomendacao, b: Recomendacao)
    ensures Marca(a) == Marca(b) <==> a == b
  {
  }

  /** No two entries share a text, so the text tells the entry back. */
  lemma TextosDistintos(a: Recomendacao, b: Recomendacao)
    ensures TextoRecomendacao(a) == TextoRecomendacao(b) <==> a == b
  {
    MarcaInicial(a);
    MarcaInicial(b);
    MarcasDistintas(a, b);
  }

  /** Each of the four levels picks its own entry, and every other key (missing, empty, lower-case, unknown) `DESCONHECIDO`. */
  lemma EntradaPorNivel(nivel: Option<string>)
    ensures EntradaRecomendacao(nivel) == RecCritico <==> nivel == Some("CRITICO")
    ensures EntradaRecomendacao(nivel) == RecAlto <==> nivel == Some("ALTO")
    ensures EntradaRecomendacao(nivel) == RecMedio <==> nivel == Some("MEDIO")
    ensures EntradaRecomendacao(nivel) == RecBaixo <==> nivel == Some("BAIXO")
  {
  }

  /**
   * Each of the four levels gets its own text, and every other key (missing,
   * empty, lower-case, unknown, but not inherited from `Object.prototype`)
   * gets the `DESCONHECIDO` one.
   */
  lemma RecomendacaoPorNivel(nivel: Option<string>)
    ensures ObterRecomendacao(nivel) == TextoRecomendacao(RecCritico) <==> nivel == Some("CRITICO")
    ensures ObterRecomendacao(nivel) == TextoRecomendacao(RecAlto) <==> nivel == Some("ALTO")
    ensures ObterRecomendacao(nivel) == TextoRecomendacao(RecMedio) <==> nivel == Some("MEDIO")
    ensures ObterRecomendacao(nivel) == TextoRecomendacao(RecBaixo) <==> nivel == Some("BAIXO")
    ensures ObterRecomendacao(nivel) == TextoRecomendacao(RecDesconhecido) <==>
      nivel != Some("CRITICO") && nivel != Some("ALTO") && nivel != Some("MEDIO") && nivel != Some("BAIXO")
  {
    var e := EntradaRecomendacao(nivel);
    EntradaPorNivel(nivel);
    TextosDistintos(e, RecCritico);
    TextosDistintos(e, RecAlto);
    TextosDistintos(e, RecMedio);
    TextosDistintos(e, RecBaixo);
    TextosDistintos(e, RecDesconhecido);
  }

  // ---------------------------------------------------------------------------
  // The latest reading and the values taken from it
  // ---------------------------------------------------------------------------

  /** The successful `/medicoes/estatisticas` body: its two possibly missing lists. */
  datatype Estatisticas = Estatisticas(ultimasMedicoes: Option<seq<Medicao>>, data: Option<seq<Medicao>>)

  /**
   * `stats.ultimasMedicoes?.[0] || stats.data?.[0] || null`: the first reading
   * of the first list that has one.
   */
  function UltimaMedicao(e: Estatisticas): (r: Option<Medicao>)
    ensures r.Some? <==> (e.ultimasMedicoes.Some? && |e.ultimasMedicoes.value| > 0) || (e.data.Some? && |e.data.value| > 0)
    ensures e.ultimasMedicoes.Some? && |e.ultimasMedicoes.value| > 0 ==> r == Some(e.ultimasMedicoes.value[0])
    ensures !(e.ultimasMedicoes.Some? && |e.ultimasMedicoes.value| > 0) && e.data.Some? && |e.data.value| > 0 ==> r == Some(e.data.value[0])
  {
    if e.ultimasMedicoes.Some? && |e.ultimasMedicoes.value| > 0 then Some(e.ultimasMedicoes.value[0])
    else if e.data.Some? && |e.data.value| > 0 then Some(e.data.value[0])
    else None
  }

  /** The `dados` object built from the latest reading (the subset the panel reads, plus the soil and climate values). */
  datatype Dados = Dados(
    nivelRisco: string,
    indiceRisco: real,
    recomendacao: string,
    umidadeSolo: real,
    temperaturaSolo: real,
    inclinacao: real,
    temperaturaAr: real,
    umidadeAr: real,
    erosao: real)

  /** `ultima.nivel_risco || ultima.risco`. */
  function NivelOuRisco(u: Medicao): Option<string> {
    Js.OuOpcao(u.nivelRisco, u.risco)
  }

  /** The `dados` object: the level through `||`, the numbers through `??`. */
  function PrepararDados(u: Medicao): Dados {
    Dados(
      Js.OuTexto(NivelOuRisco(u), "DESCONHECIDO"),
      Js.Coalescer(u.indiceRisco, 0.0),
      ObterRecomendacao(NivelOuRisco(u)),
      Js.Coalescer(u.umidadeSolo, 0.0),
      Js.Coalescer(u.temperaturaSolo, 0.0),
      Js.Coalescer(u.inclinacaoGraus, 0.0),
      Js.Coalescer(u.temperaturaAr, 0.0),
      Js.Coalescer(u.umidadeAr, 0.0),
      Js.Coalescer(u.erosaoTaxa, 0.0))
  }

  /**
   * The level is `nivel_risco` when truthy, else `risco` when truthy, else
   * `DESCONHECIDO`, so never empty; the recommendation is the one of that
   * level; a number is replaced by 0 only when missing, so a reading of 0
   * stays 0 and any other value is kept.
   */
  lemma PrepararDadosRegras(u: Medicao)
    ensures var d := PrepararDados(u);
      && (Js.TextoVerdadeiro(u.nivelRisco) ==> d.nivelRisco == u.nivelRisco.value)
      && (!Js.TextoVerdadeiro(u.nivelRisco) && Js.TextoVerdadeiro(u.risco) ==> d.nivelRisco == u.risco.value)
      && (!Js.TextoVerdadeiro(u.nivelRisco) && !Js.TextoVerdadeiro(u.risco) ==> d.nivelRisco == "DESCONHECIDO")
      && d.nivelRisco != ""
      && d.recomendacao == ObterRecomendacao(Some(d.nivelRisco))
      && (u.indiceRisco.Some? ==> d.indiceRisco == u.indiceRisco.value)
      && (u.indiceRisco.None? ==> d.indiceRisco == 0.0)
      && (u.umidadeSolo.Some? ==> d.umidadeSolo == u.umidadeSolo.value)
      && (u.erosaoTaxa.Some? ==> d.erosao == u.erosaoTaxa.value)
      && (u.erosaoTaxa.None? ==> d.erosao == 0.0)
  {
  }

  // ---------------------------------------------------------------------------
  // The risk bar
  // ---------------------------------------------------------------------------

  /** `Math.max(0, Math.min(100, indice))`. */
  function Percentual(indice: real): real {
    var menor := if 100.0 < indice then 100.0 else indice;
    if 0.0 > menor then 0.0 else menor
  }

  /** The bar width lies in [0, 100]: an index in range is kept, a lower one gives 0, a higher one 100. */
  lemma PercentualLimitado(indice: real)
    ensures 0.0 <= Percentual(indice) <= 100.0
    ensures 0.0 <= indice <= 100.0 ==> Percentual(indice) == indice
    ensures indice < 0.0 ==> Percentual(indice) == 0.0
    ensures indice > 100.0 ==> Percentual(indice) == 100.0
  {
  }

  /** The bar colours. */
  datatype Cor = Vermelho | Laranja | Amarelo | Verde

  /** The CSS colour of each. */
  function Hex(c: Cor): string {
    match c
    case Vermelho => "#dc3545"
    case Laranja => "#fd7e14"
    case Amarelo => "#ffc107"
    case Verde => "#28a745"
  }

  /** The colour band of a percentage. */
  function CorBarra(pct: real): Cor {
    if pct > 75.0 then Vermelho
    else if pct > 55.0 then Laranja
    else if pct > 30.0 then Amarelo
    else Verde
  }

  /** How severe a colour is, green lowest. */
  function Severidade(c: Cor): nat {
    match c
    case Verde => 0
    case Amarelo => 1
    case Laranja => 2
    case Vermelho => 3
  }

  /**
   * The bands: red above 75, orange in (55, 75], yellow in (30, 55], green at
   * 30 and below; a higher percentage never gets a milder colour.
   */
  lemma CorBarraFaixas(pct: real, pct2: real)
    ensures CorBarra(pct) == Vermelho <==> pct > 75.0
    ensures CorBarra(pct) == Laranja <==> 55.0 < pct <= 75.0
    ensures CorBarra(pct) == Amarelo <==> 30.0 < pct <= 55.0
    ensures CorBarra(pct) == Verde <==> pct <= 30.0
    ensures pct <= pct2 ==> Severidade(CorBarra(pct)) <= Severidade(CorBarra(pct2))
  {
  }

  // ---------------------------------------------------------------------------
  // The renderer
  // ---------------------------------------------------------------------------

  /** What a caller passes as `dados`; `None` is `undefined`. */
  datatype DadosExibicao = DadosExibicao(nivelRisco: Option<string>, indiceRisco: Option<real>, recomendacao: Option<string>)

  /** The object the fetch step builds, as the renderer sees it. */
  function ExibicaoDe(d: Dados): DadosExibicao {
    DadosExibicao(Some(d.nivelRisco), Some(d.indiceRisco), Some(d.recomendacao))
  }

  /** The index bar: width in percent and colour. */
  datatype Barra = Barra(largura: real, cor: Cor)

  /** The panel's elements: status text and class, blinking, index shown, bar, recommendation text. */
  datatype Tela = Tela(status: string, classe: string, piscando: bool, indice: Option<real>, barra: Option<Barra>, recomendacao: string)

  /** The bar for an index. */
  function BarraDe(indice: real): Barra {
    Barra(Percentual(indice), CorBarra(Percentual(indice)))
  }

  /**
   * The last `atualizarDashboard(dados)`: the level (or `-`) and its
   * lower-cased class; the index and bar only when an index is given; the
   * recommendation (or `Aguardando dados...` when falsy) only when given;
   * blinking exactly for `CRITICO`.
   */
  function Renderizar(t: Tela, d: DadosExibicao): Tela {
    Tela(
      Js.OuTexto(d.nivelRisco, "-"),
      Texto.Minusculas(Js.OuTexto(d.nivelRisco, "")),
      d.nivelRisco == Some("CRITICO"),
      if d.indiceRisco.Some? then d.indiceRisco else t.indice,
      if d.indiceRisco.Some? then Some(BarraDe(d.indiceRisco.value)) else t.barra,
      if d.recomendacao.Some? then Js.OuTexto(d.recomendacao, "Aguardando dados...") else t.recomendacao)
  }

  /**
   * The element blinks exactly for the level `CRITICO`, compared as is (a
   * lower-case `critico` does not blink); without an index the bar and index
   * are left as they were, and without a recommendation its text too.
   */
  lemma RenderizarRegras(t: Tela, d: DadosExibicao)
    ensures Renderizar(t, d).piscando <==> d.nivelRisco == Some("CRITICO")
    ensures !Renderizar(t, DadosExibicao(Some("critico"), d.indiceRisco, d.recomendacao)).piscando
    ensures d.indiceRisco.None? ==> Renderizar(t, d).barra == t.barra && Renderizar(t, d).indice == t.indice
    ensures d.indiceRisco.Some? ==> Renderizar(t, d).barra.Some? && 0.0 <= Renderizar(t, d).barra.value.largura <= 100.0
    ensures d.recomendacao.None? ==> Renderizar(t, d).recomendacao == t.recomendacao
    ensures Js.TextoVerdadeiro(d.nivelRisco) <==> Renderizar(t, d).status != "-" || d.nivelRisco == Some("-")
  {
    PercentualLimitado(if d.indiceRisco.Some? then d.indiceRisco.value else 0.0);
  }

  /** Rendering the same data twice is rendering it once. */
  lemma RenderizarIdempotente(t: Tela, d: DadosExibicao)
    ensures Renderizar(Renderizar(t, d), d) == Renderizar(t, d)
  {
  }

  /**
   * The fetching `atualizarDashboard()` the page evidently means to call: no
   * statistics (`buscarEstatisticas` gave `null`) or no reading leaves the
   * panel as it was; otherwise the panel shows the latest reading.
   */
  function AtualizacaoPretendida(t: Tela, stats: Option<Estatisticas>): Tela {
    match stats
    case None => t
    case Some(e) =>
      match UltimaMedicao(e)
      case None => t
      case Some(u) => Renderizar(t, ExibicaoDe(PrepararDados(u)))
  }

  /**
   * What the intended update shows: the latest reading's level (never empty),
   * blinking exactly when that level is `CRITICO`, the bar of its index (0
   * when missing) and the recommendation of its level.
   */
  lemma AtualizacaoMostraUltima(t: Tela, stats: Option<Estatisticas>)
    ensures stats.None? || UltimaMedicao(stats.value).None? ==> AtualizacaoPretendida(t, stats) == t
    ensures stats.Some? && UltimaMedicao(stats.value).Some? ==>
      var u := UltimaMedicao(stats.value).value; var r := AtualizacaoPretendida(t, stats);
      var nivel := Js.OuTexto(NivelOuRisco(u), "DESCONHECIDO");
      && r.status == nivel && nivel != ""
      && (r.piscando <==> nivel == "CRITICO")
      && r.barra == Some(BarraDe(Js.Coalescer(u.indiceRisco, 0.0)))
      && r.recomendacao == ObterRecomendacao(Some(nivel))
  {
    if stats.Some? && UltimaMedicao(stats.value).Some? {
      var u := UltimaMedicao(stats.value).value;
      var d := PrepararDados(u);
      PrepararDadosRegras(u);
      assert AtualizacaoPretendida(t, stats) == Renderizar(t, ExibicaoDe(d));
      assert Js.OuTexto(Some(d.nivelRisco), "-") == d.nivelRisco;
      assert Js.OuTexto(Some(d.recomendacao), "Aguardando dados...") == d.recomendacao;
    }
  }

  /**
   * What the page does on load: `atualizarDashboard()` with no argument
   * reaches the last declaration, the renderer, with `dados` undefined, and
   * reading `dados.nivel_risco` throws a TypeError (or `dados.indice_risco`
   * when the page has no `#status-geral`). `None` is that thrown error; the
   * statistics are never fetched.
   */
  function AtualizacaoComoEscrita(t: Tela, stats: Option<Estatisticas>): Option<Tela> {
    RenderizarSeDefinido(t, None)
  }

  /** The renderer on a possibly undefined `dados`: `None` when it throws. */
  function RenderizarSeDefinido(t: Tela, dados: Option<DadosExibicao>): Option<Tela> {
    match dados
    case None => None
    case Some(d) => Some(Renderizar(t, d))
  }

  /**
   * As written, the periodic update throws whatever the server holds; for a
   * server reporting a critical reading the intended update would make the
   * panel blink.
   */
  lemma AtualizacaoNuncaOcorre(t: Tela, stats: Option<Estatisticas>)
    ensures AtualizacaoComoEscrita(t, stats).None?
    ensures var u := Medicao(1, 0, Some("CRITICO"), None, Some(80.0), None, None, None, None, None, None, None, false);
      var e := Some(Estatisticas(Some([u]), None));
      AtualizacaoComoEscrita(t, e).None? && AtualizacaoPretendida(t, e).piscando
  {
  }

  // ---------------------------------------------------------------------------
  // The panel state
  // ---------------------------------------------------------------------------

  /** The panel's elements as the page updates them. */
  class Painel {
    var status: string
    var classe: string
    var piscando: bool
    var indice: Option<real>
    var barra: Option<Barra>
    var recomendacao: string

    /** The elements as one value. */
    function TelaAtual(): Tela
      reads this
    {
      Tela(status, classe, piscando, indice, barra, recomendacao)
    }

    /** The panel before any update; `inicial` stands for the page's markup. */
    constructor (inicial: Tela)
      ensures TelaAtual() == inicial
    {
      status, classe, piscando := inicial.status, inicial.classe, inicial.piscando;
      indice, barra, recomendacao := inicial.indice, inicial.barra, inicial.recomendacao;
    }

    /** The last `atualizarDashboard(dados)`, element by element. */
    method Exibir(dados: DadosExibicao)
      modifies this
      ensures TelaAtual() == Renderizar(old(TelaAtual()), dados)
    {
      status := Js.OuTexto(dados.nivelRisco, "-");
      classe := Texto.Minusculas(Js.OuTexto(dados.nivelRisco, ""));
      if dados.indiceRisco.Some? {
        indice := dados.indiceRisco;
        var pct := Percentual(dados.indiceRisco.value);
        barra := Some(Barra(pct, CorBarra(pct)));
      }
      if dados.recomendacao.Some? {
        recomendacao := Js.OuTexto(dados.recomendacao, "Aguardando dados...");
      }
      piscando := dados.nivelRisco == Some("CRITICO");
    }

    /**
     * The last `atualizarDashboard(dados)` on a possibly undefined argument:
     * reading `dados.nivel_risco` throws (`lancou`) before any element is
     * touched exactly when `dados` is undefined; otherwise it renders.
     */
    method ExibirSeDefinido(dados: Option<DadosExibicao>) returns (lancou: bool)
      modifies this
      ensures lancou <==> dados.None?
      ensures lancou <==> RenderizarSeDefinido(old(TelaAtual()), dados).None?
      ensures lancou ==> TelaAtual() == old(TelaAtual())
      ensures !lancou ==> TelaAtual() == Renderizar(old(TelaAtual()), dados.value)
    {
      if dados.None? {
        return true;
      }
      Exibir(dados.value);
      lancou := false;
    }

    /**
     * The call the page makes on load, as written: no argument reaches the
     * renderer above, which throws; the statistics the server holds (`stats`)
     * are never fetched and the panel keeps what it showed.
     */
    method AtualizarSemArgumento(stats: Option<Estatisticas>) returns (lancou: bool)
      modifies this
      ensures lancou
      ensures lancou <==> AtualizacaoComoEscrita(old(TelaAtual()), stats).None?
      ensures TelaAtual() == old(TelaAtual())
    {
      lancou := ExibirSeDefinido(None);
    }

    /**
     * The `DOMContentLoaded` listener: the first call throws, which ends the
     * listener before `setInterval` is reached, so no periodic update is
     * ever scheduled (`agendado`) and the panel keeps what it showed.
     */
    method AoCarregar(stats: Option<Estatisticas>) returns (lancou: bool, agendado: bool)
      modifies this
      ensures lancou && !agendado
      ensures TelaAtual() == old(TelaAtual())
    {
      agendado := false;
      lancou := AtualizarSemArgumento(stats);
      if lancou {
        return;
      }
      agendado := true;
    }

    /**
     * The intended fetching update with what `buscarEstatisticas` resolved
     * to: stop without a body or a reading, else build `dados` from the latest
     * reading and render it.
     */
    method Atualizar(stats: Option<Estatisticas>)
      modifies this
      ensures TelaAtual() == AtualizacaoPretendida(old(TelaAtual()), stats)
    {
      if stats.None? {
        return;
      }
      var ultima := UltimaMedicao(stats.value);
      if ultima.None? {
        return;
      }
      var dados := PrepararDados(ultima.value);
      Exibir(ExibicaoDe(dados));
    }
  }
}
