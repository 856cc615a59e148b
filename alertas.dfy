/**
 * Alert triage on the admin screen (admin/js/alertas.js): which endpoint the
 * status filter selects, the status and criticality filters, the two counters,
 * the row styling and actions, and the resolve/ignore request.
 */
module Alertas {
  import opened Wrappers
  import opened Registros
  import Texto
  import Js
  import opened Sequencias

  // ---------------------------------------------------------------------------
  // Endpoint and filters
  // ---------------------------------------------------------------------------

  /** `a => a.id === id`. */
  function ComId(id: int): Alerta -> bool {
    (a: Alerta) => a.id == id
  }

  /** The modal title for an action. */
  function TituloModal(acao: string): string {
    if acao == "resolver" then "Resolver Alerta" else "Ignorar Alerta (Falso Positivo)"
  }

  /** The confirm button's text for an action. */
  function TextoBotaoModal(acao: string): string {
    if acao == "resolver" then "Marcar como Resolvido" else "Ignorar Alerta"
  }

  /** The confirm button's class for an action. */
  function ClasseBotaoModal(acao: string): string {
    if acao == "resolver" then "btn-primary" else "btn-danger"
  }

  /** The path `carregarAlertas` fetches: the active list for 'ativo', else the history capped at 100. */
  function CaminhoAlertas(status: string): (c: string)
    ensures status == "ativo" <==> c == "/alertas/ativos"
    ensures status != "ativo" <==> c == "/alertas/historico?limite=100"
  {
    if status == "ativo" then "/alertas/ativos" else "/alertas/historico?limite=100"
  }

  /** `a => a.status === status`. */
  function StatusIgual(status: string): Alerta -> bool {
    (a: Alerta) => a.status == status
  }

  /** `a => a.nivel_criticidade === criticidade`. */
  function CriticidadeIgual(criticidade: string): Alerta -> bool {
    (a: Alerta) => a.nivelCriticidade == criticidade
  }

  /**
   * The one-pass reading of the filter chain: an alert stays iff the status
   * filter is 'ativo' (the server already filtered) or equals its status, and
   * the criticality filter is empty or equals its criticality.
   */
  predicate Mantido(status: string, criticidade: string, a: Alerta) {
    (status == "ativo" || a.status == status) && (criticidade == "" || a.nivelCriticidade == criticidade)
  }

  /** The list `carregarAlertas` keeps: the status filter, then the criticality filter. */
  function FiltrarAlertas(lista: seq<Alerta>, status: string, criticidade: string): seq<Alerta> {
    var porStatus := if status != "ativo" then Filtrar(StatusIgual(status), lista) else lista;
    if criticidade != "" then Filtrar(CriticidadeIgual(criticidade), porStatus) else porStatus
  }

  /**
   * The two filters in sequence are one filter by `Mantido`: the result is an
   * order-preserving subsequence of the fetched list holding exactly the
   * alerts that pass both.
   */
  lemma FiltrarAlertasUmaPassada(lista: seq<Alerta>, status: string, criticidade: string)
    ensures FiltrarAlertas(lista, status, criticidade) == Filtrar((a: Alerta) => Mantido(status, criticidade, a), lista)
  {
    var m := (a: Alerta) => Mantido(status, criticidade, a);
    if status != "ativo" && criticidade != "" {
      FiltrarDuasVezes(StatusIgual(status), CriticidadeIgual(criticidade), m, lista);
    } else if status != "ativo" {
      FiltrarExtensional(StatusIgual(status), m, lista);
    } else if criticidade != "" {
      FiltrarExtensional(CriticidadeIgual(criticidade), m, lista);
    } else {
      FiltrarTudo(m, lista);
    }
  }

  /** What the filtered list holds, membership in both directions. */
  lemma FiltrarAlertasMembros(lista: seq<Alerta>, status: string, criticidade: string)
    ensures var r := FiltrarAlertas(lista, status, criticidade);
      && |r| <= |lista|
      && (forall a :: a in r ==> a in lista && Mantido(status, criticidade, a))
      && (forall i :: 0 <= i < |lista| && Mantido(status, criticidade, lista[i]) ==> lista[i] in r)
  {
    FiltrarAlertasUmaPassada(lista, status, criticidade);
  }

  /** With the 'ativo' status and no criticality, the fetched list is kept whole. */
  lemma FiltrarAlertasSemFiltro(lista: seq<Alerta>)
    ensures FiltrarAlertas(lista, "ativo", "") == lista
  {
  }

  /** An empty criticality filter leaves the status-filtered list unchanged. */
  lemma CriticidadeVaziaNaoFiltra(lista: seq<Alerta>, status: string)
    requires status != "ativo"
    ensures FiltrarAlertas(lista, status, "") == Filtrar(StatusIgual(status), lista)
  {
  }

  // ---------------------------------------------------------------------------
  // Counters
  // ---------------------------------------------------------------------------

  /** `a.status === 'ativo' && a.nivel_criticidade === nivel`. */
  function AtivoCom(nivel: string): Alerta -> bool {
    (a: Alerta) => a.status == "ativo" && a.nivelCriticidade == nivel
  }

  /** `statCriticos`: the active CRITICO alerts of the list. */
  function Criticos(lista: seq<Alerta>): nat {
    Contar(AtivoCom("CRITICO"), lista)
  }

  /** `statAltos`: the active ALTO alerts of the list. */
  function Altos(lista: seq<Alerta>): nat {
    Contar(AtivoCom("ALTO"), lista)
  }

  /** Each counter, and the two together, are at most the list length. */
  lemma ContadoresLimitados(lista: seq<Alerta>)
    ensures Criticos(lista) <= |lista| && Altos(lista) <= |lista|
    ensures Criticos(lista) + Altos(lista) <= |lista|
  {
    ContarDisjuntos(AtivoCom("CRITICO"), AtivoCom("ALTO"), lista);
  }

  /**
   * Each counter counts exactly the positions of the list holding an active
   * alert at its level: the positions it selects are those and no others.
   */
  lemma ContadoresExatos(lista: seq<Alerta>)
    ensures var pos := Selecionados(AtivoCom("CRITICO"), lista);
      && Criticos(lista) == |pos|
      && forall i :: 0 <= i < |lista| ==> (i in pos <==> lista[i].status == "ativo" && lista[i].nivelCriticidade == "CRITICO")
    ensures var pos := Selecionados(AtivoCom("ALTO"), lista);
      && Altos(lista) == |pos|
      && forall i :: 0 <= i < |lista| ==> (i in pos <==> lista[i].status == "ativo" && lista[i].nivelCriticidade == "ALTO")
  {
    SelecionadosExatos(AtivoCom("CRITICO"), lista);
    SelecionadosExatos(AtivoCom("ALTO"), lista);
  }

  // ---------------------------------------------------------------------------
  // Table rows
  // ---------------------------------------------------------------------------

  /** The last cell: the two action buttons for the alert's id, or a badge with the upper-cased status. */
  datatype Acoes = Botoes(id: int) | Selo(texto: string)

  /** One table row as `renderizarTabela` builds it. */
  datatype Linha = Linha(
    classes: seq<string>,
    data: Rotulo,
    sensor: string,
    tipo: string,
    classeNivel: string,
    nivel: string,
    mensagem: string,
    acoes: Acoes)

  /** The table body: one of the single message rows, or the alert rows. */
  datatype Tabela = Carregando | Vazia | ErroDados | ErroConexao | Linhas(linhas: seq<Linha>)

  /** The text of a single-row table (the two errors are drawn in the danger colour). */
  function TextoMensagem(t: Tabela): string {
    match t
    case Carregando => "Carregando..."
    case Vazia => "Nenhum alerta encontrado"
    case ErroDados => "Erro ao carregar dados"
    case ErroConexao => "Erro de conexão"
    case Linhas(_) => ""
  }

  /** The row's class list. */
  function ClassesLinha(a: Alerta): seq<string> {
    if a.status == "ativo" then
      (if a.nivelCriticidade == "CRITICO" then ["row-danger"] else [])
      + (if a.nivelCriticidade == "ALTO" then ["row-warning"] else [])
    else ["row-muted"]
  }

  /** The sensor cell: identifier and region when the alert embeds its sensor, else `Sensor #id`. */
  function InfoSensor(a: Alerta): string {
    match a.sensores
    case Some(s) => s.identificador + " (" + s.regiao + ")"
    case None => "Sensor #" + Texto.IntParaTexto(a.sensorId)
  }

  /** `formatarTipo`: every '_' becomes a space. */
  function FormatarTipo(tipo: string): (r: string)
    ensures |r| == |tipo| && '_' !in r
    ensures forall i :: 0 <= i < |tipo| && tipo[i] == '_' ==> r[i] == ' '
    ensures forall i :: 0 <= i < |tipo| && tipo[i] != '_' ==> r[i] == tipo[i]
  {
    Texto.Substituir(tipo, '_', ' ')
  }

  /** Formatting a type twice changes nothing more. */
  lemma FormatarTipoIdempotente(tipo: string)
    ensures FormatarTipo(FormatarTipo(tipo)) == FormatarTipo(tipo)
  {
  }

  /** `formatarData`: '-' for a falsy date (missing or `null`), else the locale date and time. */
  function FormatarData(data: Carimbo): (r: Rotulo)
    ensures r == Fixo("-") <==> !data.Em?
    ensures data.Em? ==> r == DataLocal(data.ms)
  {
    match data
    case Em(ms) => DataLocal(ms)
    case _ => Fixo("-")
  }

  /** The row of one alert. */
  function LinhaDe(a: Alerta): Linha {
    Linha(
      ClassesLinha(a),
      FormatarData(a.timestamp),
      InfoSensor(a),
      FormatarTipo(a.tipoAlerta),
      "status-badge status-" + Texto.Minusculas(a.nivelCriticidade),
      a.nivelCriticidade,
      a.mensagem,
      if a.status == "ativo" then Botoes(a.id) else Selo(Texto.Maiusculas(a.status)))
  }

  /**
   * The styling and action rules: active CRITICO rows are red, active ALTO rows
   * amber, inactive rows muted, and the resolve/ignore buttons, bound to the
   * alert's own id, appear exactly on active alerts.
   */
  lemma RegrasDaLinha(a: Alerta)
    ensures "row-danger" in LinhaDe(a).classes <==> a.status == "ativo" && a.nivelCriticidade == "CRITICO"
    ensures "row-warning" in LinhaDe(a).classes <==> a.status == "ativo" && a.nivelCriticidade == "ALTO"
    ensures "row-muted" in LinhaDe(a).classes <==> a.status != "ativo"
    ensures |LinhaDe(a).classes| <= 1
    ensures LinhaDe(a).acoes.Botoes? <==> a.status == "ativo"
    ensures LinhaDe(a).acoes.Botoes? ==> LinhaDe(a).acoes.id == a.id
  {
  }

  /** `renderizarTabela`: the empty message, or one row per alert in list order. */
  function RenderizarTabela(alertas: seq<Alerta>): (t: Tabela)
    ensures |alertas| == 0 <==> t == Vazia
    ensures |alertas| > 0 ==> (t.Linhas? && |t.linhas| == |alertas|
      && forall i :: 0 <= i < |alertas| ==> t.linhas[i] == LinhaDe(alertas[i]))
  {
    if |alertas| == 0 then Vazia
    else Linhas(seq(|alertas|, i requires 0 <= i < |alertas| => LinhaDe(alertas[i])))
  }

  // ---------------------------------------------------------------------------
  // Resolve / ignore
  // ---------------------------------------------------------------------------

  /**
   * The PUT `confirmarAcao` sends: 'resolver' goes to `/resolver` with
   * `resolvido_por` and `observacoes`, any other action to `/ignorar` with
   * `ignorado_por` and `motivo`; the author is the stored user's name, or
   * 'Admin' when it is missing or empty.
   */
  function PedidoAcao(id: string, acao: string, obs: string, nome: Option<string>): (p: Pedido)
    ensures p.metodo == "PUT"
    ensures acao == "resolver" ==> (p.caminho == "/alertas/" + id + "/resolver"
      && p.corpo == [("resolvido_por", Some(Js.OuTexto(nome, "Admin"))), ("observacoes", Some(obs))])
    ensures acao != "resolver" ==> (p.caminho == "/alertas/" + id + "/ignorar"
      && p.corpo == [("ignorado_por", Some(Js.OuTexto(nome, "Admin"))), ("motivo", Some(obs))])
  {
    var endpoint := if acao == "resolver" then "resolver" else "ignorar";
    var chaveAutor := if acao == "resolver" then "resolvido_por" else "ignorado_por";
    var chaveTexto := if acao == "resolver" then "observacoes" else "motivo";
    Pedido("PUT", "/alertas/" + id + "/" + endpoint, [(chaveAutor, Some(Js.OuTexto(nome, "Admin"))), (chaveTexto, Some(obs))])
  }

  /** The author is never empty: a stored empty name is replaced by 'Admin'. */
  lemma AutorNuncaVazio(id: string, acao: string, obs: string, nome: Option<string>)
    ensures PedidoAcao(id, acao, obs, nome).corpo[0].1.Some?
    ensures PedidoAcao(id, acao, obs, nome).corpo[0].1.value != ""
    ensures !Js.TextoVerdadeiro(nome) ==> PedidoAcao(id, acao, obs, nome).corpo[0].1 == Some("Admin")
  {
  }

  /** How the PUT settled. */
  datatype RespostaAcao =
    | FalhaConexao
    | Ok
    /** A non-ok status whose body parsed, with its `error` field if any. */
    | Recusada(erro: Option<string>)
    /** A non-ok status whose body did not parse as JSON. */
    | RecusadaSemCorpo

  /** The `alert` text `confirmarAcao` shows. */
  function MensagemAcao(acao: string, r: RespostaAcao): (m: string)
    ensures r.Ok? && acao == "resolver" ==> m == "Alerta resolvido com sucesso!"
    ensures r.Ok? && acao != "resolver" ==> m == "Alerta ignorado com sucesso!"
    ensures r.Recusada? ==> m == "Erro: " + Js.OuTexto(r.erro, "Falha na operação")
    ensures r.FalhaConexao? || r.RecusadaSemCorpo? ==> m == "Erro de conexão"
  {
    match r
    case Ok => "Alerta " + (if acao == "resolver" then "resolvido" else "ignorado") + " com sucesso!"
    case Recusada(erro) => "Erro: " + Js.OuTexto(erro, "Falha na operação")
    case _ => "Erro de conexão"
  }

  /** The outcome of `fetch` + `response.json()` for an alert list. */
  datatype RespostaAlertas = FalhaRede | Json(success: bool, alertas: Option<seq<Alerta>>)

  /** The resolve/ignore modal's fields. */
  datatype Modal = Modal(
    aberto: bool,
    resolverId: string,
    acao: string,
    titulo: string,
    textoBotao: string,
    classeBotao: string,
    info: string,
    obs: string)

  /** The modal as `abrirModalResolver` fills it for alert `a` and an action. */
  function ModalPara(id: int, acao: string, a: Alerta): (m: Modal)
    ensures m.aberto && m.resolverId == Texto.IntParaTexto(id) && m.acao == acao && m.obs == ""
    ensures m.titulo == "Resolver Alerta" <==> acao == "resolver"
    ensures m.classeBotao == "btn-primary" <==> acao == "resolver"
    ensures m.textoBotao == "Marcar como Resolvido" <==> acao == "resolver"
    ensures acao != "resolver" ==>
      m.titulo == "Ignorar Alerta (Falso Positivo)" && m.textoBotao == "Ignorar Alerta" && m.classeBotao == "btn-danger"
    ensures m.info == a.tipoAlerta + ": " + a.mensagem
  {
    Modal(true, Texto.IntParaTexto(id), acao, TituloModal(acao), TextoBotaoModal(acao), ClasseBotaoModal(acao),
      a.tipoAlerta + ": " + a.mensagem, "")
  }

  /** The alert screen: the cached list, the table, the two counters and the resolve modal. */
  class PainelAlertas {
    var alertasCache: seq<Alerta>
    var tabela: Tabela
    var statCriticos: nat
    var statAltos: nat
    var modal: Modal

    /** The screen as the page loads: nothing cached, the modal closed. */
    constructor ()
      ensures alertasCache == [] && tabela == Carregando && !modal.aberto
      ensures statCriticos == 0 && statAltos == 0
    {
      alertasCache := [];
      tabela := Carregando;
      statCriticos, statAltos := 0, 0;
      modal := Modal(false, "", "", "", "", "", "", "");
    }

    /**
     * `carregarAlertas` once the request has settled; returns the path it
     * fetched. On success the list (`alertas` or []) goes through the two
     * filters into the cache, the table and the counters; a failure only
     * writes its message row.
     */
    method CarregarAlertas(status: string, criticidade: string, resposta: RespostaAlertas) returns (caminho: string)
      modifies this
      ensures caminho == CaminhoAlertas(status)
      ensures resposta.FalhaRede? ==> (tabela == ErroConexao
        && alertasCache == old(alertasCache) && statCriticos == old(statCriticos) && statAltos == old(statAltos))
      ensures resposta.Json? && !resposta.success ==> (tabela == ErroDados
        && alertasCache == old(alertasCache) && statCriticos == old(statCriticos) && statAltos == old(statAltos))
      ensures resposta.Json? && resposta.success ==>
        && alertasCache == FiltrarAlertas(resposta.alertas.GetOr([]), status, criticidade)
        && tabela == RenderizarTabela(alertasCache)
        && statCriticos == Criticos(alertasCache) && statAltos == Altos(alertasCache)
      ensures modal == old(modal)
    {
      tabela := Carregando;
      caminho := CaminhoAlertas(status);
      match resposta {
        case FalhaRede =>
          tabela := ErroConexao;
        case Json(success, alertas) =>
          if success {
            var lista := alertas.GetOr([]);
            if status != "ativo" {
              lista := Filtrar(StatusIgual(status), lista);
            }
            if criticidade != "" {
              lista := Filtrar(CriticidadeIgual(criticidade), lista);
            }
            alertasCache := lista;
            tabela := RenderizarTabela(lista);
            statCriticos := Criticos(lista);
            statAltos := Altos(lista);
          } else {
            tabela := ErroDados;
          }
      }
    }

    /**
     * `abrirModalResolver`: for an id in the cache, fills the modal for the
     * action and that alert and opens it; for any other id nothing changes.
     */
    method AbrirModalResolver(id: int, acao: string)
      modifies this
      ensures Encontrar(ComId(id), old(alertasCache)).None? ==> modal == old(modal)
      ensures Encontrar(ComId(id), old(alertasCache)).Some? ==>
        var a := Encontrar(ComId(id), old(alertasCache)).value;
        a in old(alertasCache) && a.id == id && modal == ModalPara(id, acao, a)
      ensures alertasCache == old(alertasCache) && tabela == old(tabela)
      ensures statCriticos == old(statCriticos) && statAltos == old(statAltos)
    {
      var encontrado := Encontrar(ComId(id), alertasCache);
      if encontrado.None? {
        return;
      }
      modal := ModalPara(id, acao, encontrado.value);
    }

    /** `fecharModalResolver`. */
    method FecharModalResolver()
      modifies this
      ensures modal == old(modal).(aberto := false)
      ensures alertasCache == old(alertasCache) && tabela == old(tabela)
      ensures statCriticos == old(statCriticos) && statAltos == old(statAltos)
    {
      modal := modal.(aberto := false);
    }

    /**
     * `confirmarAcao` once the PUT has settled, with `obs` the text typed in
     * the modal: the request built from the modal's id and action, the message
     * shown, and whether the list is reloaded (only on success, which also
     * closes the modal).
     */
    method ConfirmarAcao(obs: string, nome: Option<string>, resposta: RespostaAcao)
      returns (pedido: Pedido, mensagem: string, recarregar: bool)
      modifies this
      ensures pedido == PedidoAcao(old(modal.resolverId), old(modal.acao), obs, nome)
      ensures mensagem == MensagemAcao(old(modal.acao), resposta)
      ensures recarregar <==> resposta.Ok?
      ensures modal == (if resposta.Ok? then old(modal).(aberto := false) else old(modal))
      ensures alertasCache == old(alertasCache) && tabela == old(tabela)
      ensures statCriticos == old(statCriticos) && statAltos == old(statAltos)
    {
      pedido := PedidoAcao(modal.resolverId, modal.acao, obs, nome);
      mensagem := MensagemAcao(modal.acao, resposta);
      recarregar := resposta.Ok?;
      if resposta.Ok? {
        FecharModalResolver();
      }
    }
  }
}
