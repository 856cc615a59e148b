/**
 * The admin home page (admin/js/dashboard.js): the sensor and alert summary
 * cards, the list of the first five active alerts, the alert icon chosen by
 * keyword and the relative time of each alert.
 */
module DashboardAdmin {
  import opened Wrappers
  import opened Registros
  import Texto
  import Js
  import opened Sequencias

  // ---------------------------------------------------------------------------
  // Summary cards
  // ---------------------------------------------------------------------------

  /** `s.status === 'ativo'`. */
  function SensorAtivo(): Sensor -> bool {
    (s: Sensor) => s.status == "ativo"
  }

  /** The number of active sensors, never more than the sensors listed. */
  function ContarAtivos(sensores: seq<Sensor>): (r: nat)
    ensures r <= |sensores|
    ensures r == |Filtrar(SensorAtivo(), sensores)|
  {
    |Filtrar(SensorAtivo(), sensores)|
  }

  /**
   * The count is that of the positions holding an active sensor: those
   * positions are in range, strictly increasing, each active, and include
   * every active position.
   */
  lemma ContarAtivosPosicoes(sensores: seq<Sensor>)
    ensures var pos := Selecionados(SensorAtivo(), sensores);
      && ContarAtivos(sensores) == |pos|
      && (forall k :: 0 <= k < |pos| ==> pos[k] < |sensores| && sensores[pos[k]].status == "ativo")
      && (forall i :: 0 <= i < |sensores| && sensores[i].status == "ativo" ==> i in pos)
  {
    FiltrarNasPosicoes(SensorAtivo(), sensores);
    SelecionadosCrescentes(SensorAtivo(), sensores);
    SelecionadosCompletos(SensorAtivo(), sensores);
  }

  /** The first card: the active count over the total. */
  datatype CartaoSensores = SensoresPendente | SensoresContagem(ativos: nat, total: nat)

  /** The first card's trend line. */
  function TendenciaSensores(c: CartaoSensores): string {
    match c
    case SensoresPendente => ""
    case SensoresContagem(_, total) => Texto.IntParaTexto(total) + " total cadastrados"
  }

  /** The second card's trend line: a call to action when there is a critical alert, the neutral line otherwise. */
  datatype Tendencia = CriticosAcao(criticos: int) | Monitorando

  /** The trend for a critical count. */
  function TendenciaAlertas(criticos: int): (t: Tendencia)
    ensures t.CriticosAcao? <==> criticos > 0
    ensures t.CriticosAcao? ==> t.criticos == criticos
  {
    if criticos > 0 then CriticosAcao(criticos) else Monitorando
  }

  /** The trend text and colour. */
  function TextoTendencia(t: Tendencia): (string, string) {
    match t
    case CriticosAcao(c) => (Texto.IntParaTexto(c) + " Críticos! Ação necessária", "var(--danger)")
    case Monitorando => ("Monitoramento ativo", "var(--text-secondary)")
  }

  /** The second card: critical plus high active alerts, and the trend. */
  datatype CartaoAlertas = AlertasPendente | AlertasContagem(valor: int, tendencia: Tendencia)

  /** The second card for the counts `por_criticidade.critico` and `.alto`. */
  function CartaoAlertasDe(criticos: int, altos: int): (c: CartaoAlertas)
    ensures c.AlertasContagem? && c.valor == criticos + altos && c.tendencia == TendenciaAlertas(criticos)
  {
    AlertasContagem(criticos + altos, TendenciaAlertas(criticos))
  }

  /** The `/sensores` response: a thrown fetch or JSON error, or the body (`sensores` possibly missing). */
  datatype RespostaSensores = FalhaRede | Json(success: bool, sensores: Option<seq<Sensor>>)

  /** The `/alertas/ativos` response as the cards read it: the `por_criticidade` counts, possibly missing. */
  datatype RespostaContagem = FalhaRede | Json(success: bool, porCriticidade: Option<(int, int)>)

  // ---------------------------------------------------------------------------
  // Pending alerts
  // ---------------------------------------------------------------------------

  /** How many alerts the list shows at most. */
  const MaxPendentes: nat := 5

  /** `alertas.slice(0, 5)`. */
  function Prioritarios(alertas: seq<Alerta>): seq<Alerta> {
    Js.Fatiar(alertas, 0, MaxPendentes)
  }

  /** The list keeps the first min(5, n) alerts in the order the server sent them. */
  lemma PrioritariosPrefixo(alertas: seq<Alerta>)
    ensures var n := if |alertas| < MaxPendentes then |alertas| else MaxPendentes;
      Prioritarios(alertas) == alertas[..n] && |Prioritarios(alertas)| == n
  {
  }

  /** `getIconeAlerta`: the first keyword the alert type contains, in the order rain, saturation, slope, cohesion. */
  function IconeAlerta(tipo: string): string {
    if Texto.Contem(tipo, "CHUVA") then "thunderstorm"
    else if Texto.Contem(tipo, "SATURACAO") then "water_drop"
    else if Texto.Contem(tipo, "INCLINACAO") || Texto.Contem(tipo, "ANGULO") then "landslide"
    else if Texto.Contem(tipo, "COESAO") then "terrain"
    else "warning"
  }

  /**
   * Each icon is chosen exactly when its keyword occurs and none checked
   * before it does; `warning` exactly when no keyword occurs.
   */
  lemma IconePrioridade(tipo: string)
    ensures var chuva, sat, incl, coesao :=
      Texto.Contem(tipo, "CHUVA"), Texto.Contem(tipo, "SATURACAO"),
      Texto.Contem(tipo, "INCLINACAO") || Texto.Contem(tipo, "ANGULO"), Texto.Contem(tipo, "COESAO");
      var r := IconeAlerta(tipo);
      && (r == "thunderstorm" <==> chuva)
      && (r == "water_drop" <==> !chuva && sat)
      && (r == "landslide" <==> !chuva && !sat && incl)
      && (r == "terrain" <==> !chuva && !sat && !incl && coesao)
      && (r == "warning" <==> !chuva && !sat && !incl && !coesao)
  {
  }

  /** A type holding both `CHUVA` and `SATURACAO` gets the rain icon: the earlier test wins. */
  lemma ChuvaAntesDeSaturacao()
    ensures IconeAlerta("CHUVA_SATURACAO") == "thunderstorm"
  {
    assert "CHUVA_SATURACAO"[..5] == "CHUVA";
  }

  /**
   * `formatarTempo(alerta.timestamp)` at time `agora`: whole minutes under an
   * hour, whole hours under a day, else the locale date. A missing timestamp
   * is an invalid date: every comparison with NaN fails and the locale text
   * is `Invalid Date`; a `null` one is the epoch.
   */
  function FormatarTempo(agora: int, quando: Carimbo): Rotulo {
    match quando
    case Ausente => Fixo("Invalid Date")
    case Nulo => FormatarInstante(agora, 0)
    case Em(data) => FormatarInstante(agora, data)
  }

  /** `formatarTempo` on a valid date `data`. */
  function FormatarInstante(agora: int, data: int): Rotulo {
    var diff := (agora - data) / 60000;
    if diff < 60 then Fixo(Texto.IntParaTexto(diff) + " min atrás")
    else
      var horas := diff / 60;
      if horas < 24 then Fixo(Texto.IntParaTexto(horas) + "h atrás")
      else DataLocal(data)
  }

  /**
   * The buckets in milliseconds: under an hour the text gives the whole
   * minutes elapsed, from one hour to under a day the whole hours, and from a
   * day on the date itself.
   */
  lemma FormatarTempoFaixas(agora: int, data: int)
    ensures var d, r := agora - data, FormatarTempo(agora, Em(data));
      && (d < 3600000 ==> exists m :: m * 60000 <= d < (m + 1) * 60000 && r == Fixo(Texto.IntParaTexto(m) + " min atrás"))
      && (3600000 <= d < 86400000 ==>
           exists h :: 1 <= h < 24 && h * 3600000 <= d < (h + 1) * 3600000 && r == Fixo(Texto.IntParaTexto(h) + "h atrás"))
      && (d >= 86400000 ==> r == DataLocal(data))
  {
    var d, r := agora - data, FormatarTempo(agora, Em(data));
    var m := d / 60000;
    assert m * 60000 <= d < (m + 1) * 60000;
    assert d < 3600000 <==> m < 60;
    if m < 60 {
      assert r == Fixo(Texto.IntParaTexto(m) + " min atrás");
    } else {
      var h := m / 60;
      assert h == d / 3600000 by {
        assert d == 3600000 * h + (60000 * (m % 60) + d % 60000);
      }
      assert h * 3600000 <= d < (h + 1) * 3600000;
      if h < 24 {
        assert r == Fixo(Texto.IntParaTexto(h) + "h atrás");
      }
    }
  }

  /**
   * The two timestamps that are not instants: a missing one reads `Invalid
   * Date`, while a `null` one is the epoch, so from a day after it on the
   * entry shows the epoch's locale date.
   */
  lemma TempoSemData(agora: int)
    ensures FormatarTempo(agora, Ausente) == Fixo("Invalid Date")
    ensures FormatarTempo(agora, Nulo) == FormatarTempo(agora, Em(0))
    ensures agora >= 86400000 ==> FormatarTempo(agora, Nulo) == DataLocal(0)
  {
    if agora >= 86400000 {
      FormatarTempoFaixas(agora, 0);
    }
  }

  /** One entry of the pending list. */
  datatype ItemAlerta = ItemAlerta(
    classe: string,
    icone: string,
    titulo: string,
    mensagem: string,
    sensor: string,
    tempo: Rotulo)

  /** The entry drawn for an alert; a missing embedded sensor prints as `undefined`. */
  function ItemDe(a: Alerta, agora: int): ItemAlerta {
    ItemAlerta(
      "alert-item " + Texto.Minusculas(a.nivelCriticidade),
      IconeAlerta(a.tipoAlerta),
      Texto.Substituir(a.tipoAlerta, '_', ' '),
      a.mensagem,
      match a.sensores case Some(r) => r.identificador case None => "undefined",
      FormatarTempo(agora, a.timestamp))
  }

  /** The entries for a list of alerts, in order. */
  function ItensDe(alertas: seq<Alerta>, agora: int): (r: seq<ItemAlerta>)
    ensures |r| == |alertas| && forall i :: 0 <= i < |alertas| ==> r[i] == ItemDe(alertas[i], agora)
  {
    seq(|alertas|, i requires 0 <= i < |alertas| => ItemDe(alertas[i], agora))
  }

  /** What the pending list shows. */
  datatype ListaPendentes = Carregando | Itens(itens: seq<ItemAlerta>) | Tranquilo | ErroLista

  /** The `/alertas/ativos` response as the list reads it. */
  datatype RespostaPendentes = FalhaRede | Json(success: bool, alertas: Option<seq<Alerta>>)

  /** The pieces of the admin home page this model tracks. */
  class PainelAdmin {
    var cartaoSensores: CartaoSensores
    var cartaoAlertas: CartaoAlertas
    /** The third card, set to `Online` / `Sistema operando` when both requests got through. */
    var sistemaOnline: bool
    var lista: ListaPendentes

    /** The page before any request settles. */
    constructor ()
      ensures cartaoSensores == SensoresPendente && cartaoAlertas == AlertasPendente
      ensures !sistemaOnline && lista == Carregando
    {
      cartaoSensores, cartaoAlertas := SensoresPendente, AlertasPendente;
      sistemaOnline, lista := false, Carregando;
    }

    /**
     * `carregarStats` with the two responses, in order. Inside one `try`: a
     * network error, or a successful body missing its list or counts, throws
     * and stops everything after it; an unsuccessful body only skips its card.
     */
    method CarregarStats(sensores: RespostaSensores, contagem: RespostaContagem)
      modifies this
      ensures var lancaSensores := sensores.FalhaRede? || (sensores.success && sensores.sensores.None?);
        var lancaAlertas := lancaSensores || contagem.FalhaRede? || (contagem.success && contagem.porCriticidade.None?);
        && (!lancaSensores && sensores.success ==>
             cartaoSensores == SensoresContagem(ContarAtivos(sensores.sensores.value), |sensores.sensores.value|))
        && (lancaSensores || !sensores.success ==> cartaoSensores == old(cartaoSensores))
        && (!lancaAlertas && contagem.success ==>
             cartaoAlertas == CartaoAlertasDe(contagem.porCriticidade.value.0, contagem.porCriticidade.value.1))
        && (lancaAlertas || !contagem.success ==> cartaoAlertas == old(cartaoAlertas))
        && (sistemaOnline == (!lancaAlertas || old(sistemaOnline)))
      ensures lista == old(lista)
    {
      match sensores {
        case FalhaRede =>
          return;
        case Json(success, lido) =>
          if success {
            if lido.None? {
              return;
            }
            var total := |lido.value|;
            var ativos := |Filtrar(SensorAtivo(), lido.value)|;
            cartaoSensores := SensoresContagem(ativos, total);
          }
      }
      match contagem {
        case FalhaRede =>
          return;
        case Json(success, porCriticidade) =>
          if success {
            if porCriticidade.None? {
              return;
            }
            var criticos := porCriticidade.value.0;
            var altos := porCriticidade.value.1;
            cartaoAlertas := AlertasContagem(criticos + altos, if criticos > 0 then CriticosAcao(criticos) else Monitorando);
          }
      }
      sistemaOnline := true;
    }

    /**
     * `carregarAlertasPendentes` at time `agora`: with a successful non-empty
     * list, one entry per alert among the first five, appended in order; the
     * empty state for an empty list or an unsuccessful body; the error text
     * when the request fails or the list is missing.
     */
    method CarregarAlertasPendentes(resposta: RespostaPendentes, agora: int)
      modifies this
      ensures resposta.FalhaRede? ==> lista == ErroLista
      ensures resposta.Json? && resposta.success && resposta.alertas.None? ==> lista == ErroLista
      ensures resposta.Json? && resposta.success && resposta.alertas.Some? && |resposta.alertas.value| > 0 ==>
        lista == Itens(ItensDe(Prioritarios(resposta.alertas.value), agora))
      ensures resposta.Json? && (!resposta.success || (resposta.alertas.Some? && |resposta.alertas.value| == 0)) ==>
        lista == Tranquilo
      ensures cartaoSensores == old(cartaoSensores) && cartaoAlertas == old(cartaoAlertas) && sistemaOnline == old(sistemaOnline)
    {
      lista := Carregando;
      match resposta {
        case FalhaRede =>
          lista := ErroLista;
        case Json(success, alertas) =>
          if success && alertas.None? {
            lista := ErroLista;
            return;
          }
          if success && |alertas.value| > 0 {
            var prioritarios := Js.Fatiar(alertas.value, 0, 5);
            var itens: seq<ItemAlerta> := [];
            var i := 0;
            while i < |prioritarios|
              invariant 0 <= i <= |prioritarios|
              invariant itens == ItensDe(prioritarios[..i], agora)
            {
              assert prioritarios[..i + 1][..i] == prioritarios[..i];
              itens := itens + [ItemDe(prioritarios[i], agora)];
              i := i + 1;
            }
            assert prioritarios[..i] == prioritarios;
            lista := Itens(itens);
          } else {
            lista := Tranquilo;
          }
      }
    }
  }
}
