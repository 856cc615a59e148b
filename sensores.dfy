/**
 * The sensor administration screen (admin/js/sensores.js): the soil-type
 * table behind the calibration defaults, the text and status search, the
 * create/edit form and the request it sends, and the calibration form with
 * its defaults.
 */
module Sensores {
  import opened Wrappers
  import opened Registros
  import Texto
  import Js
  import opened Sequencias

  // ---------------------------------------------------------------------------
  // Soil types
  // ---------------------------------------------------------------------------

  /** `tiposSoloCache` filled from `tipos` in order: keyed by `nome`, so a later entry overwrites an earlier one. */
  function MapaSolos(tipos: seq<TipoSolo>): map<string, TipoSolo>
    decreases |tipos|
  {
    if tipos == [] then map[]
    else MapaSolos(tipos[..|tipos| - 1])[tipos[|tipos| - 1].nome := tipos[|tipos| - 1]]
  }

  /** No entry after position i has the name of entry i. */
  ghost predicate UltimoComNome(tipos: seq<TipoSolo>, i: int)
    requires 0 <= i < |tipos|
  {
    forall j :: i < j < |tipos| ==> tipos[j].nome != tipos[i].nome
  }

  /** The table's keys are exactly the names in the list. */
  lemma {:induction false} MapaSolosChaves(tipos: seq<TipoSolo>)
    ensures forall nome :: nome in MapaSolos(tipos) <==> exists i :: 0 <= i < |tipos| && tipos[i].nome == nome
    decreases |tipos|
  {
    if tipos != [] {
      var n := |tipos| - 1;
      MapaSolosChaves(tipos[..n]);
      assert forall i :: 0 <= i < n ==> tipos[..n][i] == tipos[i];
    }
  }

  /** Each name maps to the last entry that carries it. */
  lemma {:induction false} MapaSolosUltimoVence(tipos: seq<TipoSolo>)
    ensures forall i :: 0 <= i < |tipos| && UltimoComNome(tipos, i) ==>
      tipos[i].nome in MapaSolos(tipos) && MapaSolos(tipos)[tipos[i].nome] == tipos[i]
    decreases |tipos|
  {
    if tipos != [] {
      var n := |tipos| - 1;
      var ant := tipos[..n];
      MapaSolosUltimoVence(ant);
      forall i | 0 <= i < |tipos| && UltimoComNome(tipos, i)
        ensures tipos[i].nome in MapaSolos(tipos) && MapaSolos(tipos)[tipos[i].nome] == tipos[i]
      {
        if i < n {
          assert tipos[n].nome != tipos[i].nome;
          assert ant[i] == tipos[i];
          assert UltimoComNome(ant, i) by {
            forall j | i < j < |ant|
              ensures ant[j].nome != ant[i].nome
            {
              assert ant[j] == tipos[j];
            }
          }
        }
      }
    }
  }

  /** Writing the entries once more over a table that already holds them, or over an empty one, gives the same table. */
  lemma PreencherDeNovo(antes: map<string, TipoSolo>, tipos: seq<TipoSolo>)
    requires antes == map[] || antes == MapaSolos(tipos)
    ensures antes + MapaSolos(tipos) == MapaSolos(tipos)
  {
  }

  /** One more entry written into the table being filled. */
  lemma PreencherPasso(antes: map<string, TipoSolo>, tipos: seq<TipoSolo>, j: nat)
    requires j < |tipos|
    ensures (antes + MapaSolos(tipos[..j]))[tipos[j].nome := tipos[j]] == antes + MapaSolos(tipos[..j + 1])
  {
    assert tipos[..j + 1][..j] == tipos[..j];
  }

  /** The `/config/solos` response: a thrown fetch or JSON error, or the parsed body. */
  datatype RespostaSolos = FalhaRede | Json(success: bool, tiposSolo: Option<seq<TipoSolo>>)

  // ---------------------------------------------------------------------------
  // Search
  // ---------------------------------------------------------------------------

  /** `matchTermo`: the (lower-cased) term occurs in the lower-cased identifier or region. */
  predicate CasaTermo(s: Sensor, termo: string) {
    Texto.Contem(Texto.Minusculas(s.identificador), termo) || Texto.Contem(Texto.Minusculas(s.regiao), termo)
  }

  /** `matchStatus`: the filter is `todos` or equals the sensor's status. */
  predicate CasaStatus(s: Sensor, status: string) {
    status == "todos" || s.status == status
  }

  /** The `filter` callback of `filtrarSensores`, the term lower-cased first. */
  function CriterioSensor(termo: string, status: string): Sensor -> bool {
    (s: Sensor) => CasaTermo(s, Texto.Minusculas(termo)) && CasaStatus(s, status)
  }

  /** `filtrados`. */
  function SensoresFiltrados(cache: seq<Sensor>, termo: string, status: string): seq<Sensor> {
    Filtrar(CriterioSensor(termo, status), cache)
  }

  /**
   * The search result is an order-preserving subsequence of the cache holding
   * exactly the sensors whose identifier or region contains the term, case
   * aside, and whose status passes the status filter.
   */
  lemma SensoresFiltradosCaracterizados(cache: seq<Sensor>, termo: string, status: string)
    ensures var r := SensoresFiltrados(cache, termo, status); var t := Texto.Minusculas(termo);
      && (exists idx :: Subsequencia(r, cache, idx))
      && (forall s :: s in r ==> s in cache && CasaTermo(s, t) && CasaStatus(s, status))
      && (forall i :: 0 <= i < |cache| && CasaTermo(cache[i], t) && CasaStatus(cache[i], status) ==> cache[i] in r)
  {
    assert SensoresFiltrados(cache, termo, status) == Filtrar(CriterioSensor(termo, status), cache);
    FiltrarSubsequencia(CriterioSensor(termo, status), cache);
  }

  /** The empty term matches every sensor, so with `todos` the search returns the whole cache. */
  lemma TermoVazioCasaTodos(cache: seq<Sensor>)
    ensures forall s: Sensor :: CasaTermo(s, Texto.Minusculas(""))
    ensures SensoresFiltrados(cache, "", "todos") == cache
  {
    FiltrarTudo(CriterioSensor("", "todos"), cache);
  }

  /** The lookup `sensoresCache.find(s => s.id == id)`; the id arrives as the text `String(sensor.id)`. */
  function PorId(id: string): Sensor -> bool {
    (s: Sensor) => Texto.IntParaTexto(s.id) == id
  }

  // ---------------------------------------------------------------------------
  // The create/edit form and its request
  // ---------------------------------------------------------------------------

  /** The text of each input of the sensor form. */
  datatype FormSensor = FormSensor(
    sensorId: string,
    identificador: string,
    tipo: string,
    regiao: string,
    latitude: string,
    longitude: string,
    responsavel: string,
    tipoSolo: string,
    saturacaoCritica: string)

  /** Every input empty: the form after `reset()` and the hidden id cleared. */
  const FormVazio := FormSensor("", "", "", "", "", "", "", "", "")

  /** The modal's title. */
  datatype TituloSensor = NovoSensor | EditarSensor

  /** The title text. */
  function TextoTitulo(t: TituloSensor): string {
    match t
    case NovoSensor => "Novo Sensor"
    case EditarSensor => "Editar Sensor"
  }

  /** `valor || ''` for a number written into an input; `textoNumero` stands for `String(n)`. */
  function TextoNumero(o: Option<real>, textoNumero: real -> string): string {
    if Js.NumeroVerdadeiro(o) then textoNumero(o.value) else ""
  }

  /** The form as `abrirModalSensor` fills it from a cached sensor. */
  function FormDe(s: Sensor, textoNumero: real -> string): FormSensor {
    FormSensor(
      Texto.IntParaTexto(s.id),
      s.identificador,
      s.tipo,
      s.regiao,
      TextoNumero(s.latitude, textoNumero),
      TextoNumero(s.longitude, textoNumero),
      Js.OuTexto(s.responsavel, ""),
      Js.OuTexto(s.tipoSolo, ""),
      TextoNumero(s.saturacaoCritica, textoNumero))
  }

  /** `valor || null` for an input's text: `null` exactly for the empty text. */
  function NuloSeVazio(v: string): (r: Option<string>)
    ensures r.None? <==> v == ""
    ensures r.Some? ==> r.value == v
  {
    Js.OuOpcao(Some(v), None)
  }

  /** The keys sent as `null` when their input is empty. */
  const Anulaveis: set<string> := {"latitude", "longitude", "tipo_solo", "saturacao_critica"}

  /** The form input behind each key of the body. */
  function Campo(f: FormSensor, chave: string): string {
    match chave
    case "identificador" => f.identificador
    case "tipo" => f.tipo
    case "regiao" => f.regiao
    case "latitude" => f.latitude
    case "longitude" => f.longitude
    case "responsavel" => f.responsavel
    case "tipo_solo" => f.tipoSolo
    case "saturacao_critica" => f.saturacaoCritica
    case _ => ""
  }

  /** The `dados` object of `salvarSensor`. */
  function CorpoSensor(f: FormSensor): seq<(string, Option<string>)> {
    [("identificador", Some(f.identificador)),
     ("tipo", Some(f.tipo)),
     ("regiao", Some(f.regiao)),
     ("latitude", NuloSeVazio(f.latitude)),
     ("longitude", NuloSeVazio(f.longitude)),
     ("responsavel", Some(f.responsavel)),
     ("tipo_solo", NuloSeVazio(f.tipoSolo)),
     ("saturacao_critica", NuloSeVazio(f.saturacaoCritica))]
  }

  /** The request `salvarSensor` sends: PUT to the sensor's path when the hidden id is set, else POST to the collection. */
  function PedidoSensor(f: FormSensor): Pedido {
    if f.sensorId != "" then Pedido("PUT", "/sensores/" + f.sensorId, CorpoSensor(f))
    else Pedido("POST", "/sensores", CorpoSensor(f))
  }

  /**
   * An empty id creates (POST to `/sensores`), any other edits (PUT to
   * `/sensores/{id}`); the body sends the eight inputs under their keys, the
   * four nullable ones as `null` exactly when empty and the rest as typed.
   */
  lemma PedidoSensorRegras(f: FormSensor)
    ensures PedidoSensor(f).metodo == "POST" <==> f.sensorId == ""
    ensures PedidoSensor(f).metodo == "PUT" <==> f.sensorId != ""
    ensures f.sensorId != "" ==> PedidoSensor(f).caminho == "/sensores/" + f.sensorId
    ensures f.sensorId == "" ==> PedidoSensor(f).caminho == "/sensores"
    ensures var corpo := PedidoSensor(f).corpo;
      && |corpo| == 8
      && (forall k :: 0 <= k < |corpo| ==> corpo[k].0 in Anulaveis ==> corpo[k].1 == NuloSeVazio(Campo(f, corpo[k].0)))
      && (forall k :: 0 <= k < |corpo| ==> corpo[k].0 !in Anulaveis ==> corpo[k].1 == Some(Campo(f, corpo[k].0)))
      && (forall k, l :: 0 <= k < l < |corpo| ==> corpo[k].0 != corpo[l].0)
  {
    assert PedidoSensor(f).corpo == CorpoSensor(f);
    CorpoSensorRegras(f);
  }

  /** Each key of the body carries its own input, `null` for an empty nullable one, and no key occurs twice. */
  lemma CorpoSensorRegras(f: FormSensor)
    ensures var corpo := CorpoSensor(f);
      && |corpo| == 8
      && (forall k :: 0 <= k < |corpo| ==> corpo[k].0 in Anulaveis ==> corpo[k].1 == NuloSeVazio(Campo(f, corpo[k].0)))
      && (forall k :: 0 <= k < |corpo| ==> corpo[k].0 !in Anulaveis ==> corpo[k].1 == Some(Campo(f, corpo[k].0)))
      && (forall k, l :: 0 <= k < l < |corpo| ==> corpo[k].0 != corpo[l].0)
  {
    var corpo := CorpoSensor(f);
    forall k, l | 0 <= k < l < |corpo|
      ensures corpo[k].0 != corpo[l].0
    {
      assert |corpo[k].0| != |corpo[l].0| || corpo[k].0[0] != corpo[l].0[0];
    }
  }

  /**
   * Editing a cached sensor and saving the form unchanged sends a PUT to that
   * sensor's path with its identifier, type, region and owner (empty when
   * missing), and sends its coordinates, soil type and critical saturation
   * as `null` exactly when they are missing or falsy.
   */
  lemma EditarSensorPedido(s: Sensor, textoNumero: real -> string)
    requires forall x :: textoNumero(x) != ""
    ensures var p := PedidoSensor(FormDe(s, textoNumero));
      && p.metodo == "PUT" && p.caminho == "/sensores/" + Texto.IntParaTexto(s.id)
      && p.corpo[0].1 == Some(s.identificador) && p.corpo[1].1 == Some(s.tipo) && p.corpo[2].1 == Some(s.regiao)
      && (p.corpo[3].1.None? <==> !Js.NumeroVerdadeiro(s.latitude))
      && (p.corpo[4].1.None? <==> !Js.NumeroVerdadeiro(s.longitude))
      && p.corpo[5].1 == Some(Js.OuTexto(s.responsavel, ""))
      && p.corpo[6].1 == Js.OuOpcao(s.tipoSolo, None)
      && (p.corpo[7].1.None? <==> !Js.NumeroVerdadeiro(s.saturacaoCritica))
  {
    Texto.TamanhoNatParaTexto(if s.id < 0 then -s.id else s.id);
  }

  /** Saving the cleared form creates a sensor with empty texts and the four nullable fields `null`. */
  lemma NovoSensorPedido()
    ensures var p := PedidoSensor(FormVazio);
      && p.metodo == "POST" && p.caminho == "/sensores"
      && forall k :: 0 <= k < |p.corpo| ==> p.corpo[k].1 == (if p.corpo[k].0 in Anulaveis then None else Some(""))
  {
  }

  // ---------------------------------------------------------------------------
  // Calibration
  // ---------------------------------------------------------------------------

  /** The calibration form: hidden id, soil type select and the four threshold values. */
  datatype FormCalibracao = FormCalibracao(
    sensorId: string,
    tipoSolo: string,
    satCrit: real,
    satTotal: real,
    angulo: real,
    coesao: real)

  /** `atualizarDefaultsSolo`: the thresholds of the selected soil type when the table has it, else nothing changes. */
  function ComDefaultsSolo(c: FormCalibracao, solos: map<string, TipoSolo>): FormCalibracao {
    if c.tipoSolo in solos then
      var p := solos[c.tipoSolo];
      c.(satCrit := p.saturacaoCritica, satTotal := p.saturacaoTotal, angulo := p.anguloAtritoCritico, coesao := p.coeficienteCoesao)
    else c
  }

  /**
   * The form `abrirModalCalibracao` leaves for sensor `s` opened under `id`:
   * its soil type or `ARENOSO`; its own thresholds when its critical
   * saturation is truthy (each other one falling back through `||` to 100, 30
   * and 0), else the soil type's defaults.
   */
  function CalibracaoPara(id: string, s: Sensor, c: FormCalibracao, solos: map<string, TipoSolo>): FormCalibracao {
    var base := c.(sensorId := id, tipoSolo := Js.OuTexto(s.tipoSolo, "ARENOSO"));
    if Js.NumeroVerdadeiro(s.saturacaoCritica) then
      base.(satCrit := s.saturacaoCritica.value,
            satTotal := Js.OuNumero(s.saturacaoTotal, 100.0),
            angulo := Js.OuNumero(s.anguloAtritoCritico, 30.0),
            coesao := Js.OuNumero(s.coeficienteCoesao, 0.0))
    else ComDefaultsSolo(base, solos)
  }

  /**
   * The calibration defaults: a missing or empty soil type reads `ARENOSO`;
   * with a truthy critical saturation the sensor's thresholds are used and a
   * stored 0 counts as absent (so it becomes 100, 30 or 0); otherwise a known
   * soil type supplies all four values and an unknown one leaves them as the
   * form had them.
   */
  lemma CalibracaoDefaults(id: string, s: Sensor, c: FormCalibracao, solos: map<string, TipoSolo>)
    ensures var r := CalibracaoPara(id, s, c, solos);
      && r.sensorId == id
      && (Js.TextoVerdadeiro(s.tipoSolo) ==> r.tipoSolo == s.tipoSolo.value)
      && (!Js.TextoVerdadeiro(s.tipoSolo) ==> r.tipoSolo == "ARENOSO")
      && (Js.NumeroVerdadeiro(s.saturacaoCritica) ==>
           && r.satCrit == s.saturacaoCritica.value
           && (s.saturacaoTotal == Some(0.0) || s.saturacaoTotal.None? ==> r.satTotal == 100.0)
           && (s.anguloAtritoCritico == Some(0.0) || s.anguloAtritoCritico.None? ==> r.angulo == 30.0)
           && (Js.NumeroVerdadeiro(s.saturacaoTotal) ==> r.satTotal == s.saturacaoTotal.value)
           && (Js.NumeroVerdadeiro(s.anguloAtritoCritico) ==> r.angulo == s.anguloAtritoCritico.value)
           && r.coesao == s.coeficienteCoesao.GetOr(0.0))
      && (!Js.NumeroVerdadeiro(s.saturacaoCritica) && r.tipoSolo in solos ==>
           && r.satCrit == solos[r.tipoSolo].saturacaoCritica && r.satTotal == solos[r.tipoSolo].saturacaoTotal
           && r.angulo == solos[r.tipoSolo].anguloAtritoCritico && r.coesao == solos[r.tipoSolo].coeficienteCoesao)
      && (!Js.NumeroVerdadeiro(s.saturacaoCritica) && r.tipoSolo !in solos ==>
           r.satCrit == c.satCrit && r.satTotal == c.satTotal && r.angulo == c.angulo && r.coesao == c.coesao)
  {
  }

  /** Applying the soil defaults twice is applying them once. */
  lemma ComDefaultsSoloIdempotente(c: FormCalibracao, solos: map<string, TipoSolo>)
    ensures ComDefaultsSolo(ComDefaultsSolo(c, solos), solos) == ComDefaultsSolo(c, solos)
  {
  }

  // ---------------------------------------------------------------------------
  // The screen
  // ---------------------------------------------------------------------------

  /** What the sensor table body shows. */
  datatype Tabela = Carregando | ErroDados | ErroConexao | Vazia | Linhas(sensores: seq<Sensor>)

  /** `renderizarTabela(sensores)`: the empty-state row or one row per sensor, in order. */
  function TabelaDe(sensores: seq<Sensor>): (t: Tabela)
    ensures t.Vazia? <==> |sensores| == 0
    ensures |sensores| > 0 ==> t == Linhas(sensores)
  {
    if |sensores| == 0 then Vazia else Linhas(sensores)
  }

  /** The `/sensores` response: a thrown fetch or JSON error, or the parsed body (`sensores` may be missing). */
  datatype RespostaSensores = FalhaRede | Json(success: bool, sensores: Option<seq<Sensor>>)

  /** The module state of the sensor screen. */
  class PainelSensores {
    /** `sensoresCache`; `None` once a successful body without `sensores` has made it undefined. */
    var sensoresCache: Option<seq<Sensor>>
    var tiposSoloCache: map<string, TipoSolo>
    var tabela: Tabela
    var form: FormSensor
    var titulo: TituloSensor
    var modalSensorAberto: bool
    var calib: FormCalibracao
    var modalCalibracaoAberto: bool

    /** The screen as the page loads; `calibInicial` is what the calibration inputs hold before any sensor is opened. */
    constructor (calibInicial: FormCalibracao)
      ensures sensoresCache == Some([]) && tiposSoloCache == map[] && tabela == Carregando
      ensures form == FormVazio && titulo == NovoSensor && !modalSensorAberto
      ensures calib == calibInicial && !modalCalibracaoAberto
    {
      sensoresCache, tiposSoloCache := Some([]), map[];
      tabela := Carregando;
      form, titulo, modalSensorAberto := FormVazio, NovoSensor, false;
      calib, modalCalibracaoAberto := calibInicial, false;
    }

    /**
     * `carregarTiposSolo` once the request has settled; `selects` says which of
     * the two selects exist on the page. On success the table is emptied and,
     * for every select present, each listed soil type is written into it, so
     * it ends as the list's table (later names winning), or empty when no
     * select exists or the list is missing (the `forEach` on it throws).
     */
    method CarregarTiposSolo(resposta: RespostaSolos, selects: seq<bool>)
      modifies this
      ensures !(resposta.Json? && resposta.success) ==> tiposSoloCache == old(tiposSoloCache)
      ensures resposta.Json? && resposta.success ==>
        tiposSoloCache == if resposta.tiposSolo.Some? && true in selects then MapaSolos(resposta.tiposSolo.value) else map[]
      ensures sensoresCache == old(sensoresCache) && tabela == old(tabela) && form == old(form) && titulo == old(titulo)
      ensures modalSensorAberto == old(modalSensorAberto) && calib == old(calib) && modalCalibracaoAberto == old(modalCalibracaoAberto)
    {
      if resposta.FalhaRede? || !resposta.success {
        return;
      }
      var tipos := resposta.tiposSolo;
      tiposSoloCache := map[];
      var s := 0;
      while s < |selects|
        invariant 0 <= s <= |selects|
        invariant tiposSoloCache == if tipos.Some? && true in selects[..s] then MapaSolos(tipos.value) else map[]
        invariant sensoresCache == old(sensoresCache) && tabela == old(tabela) && form == old(form) && titulo == old(titulo)
        invariant modalSensorAberto == old(modalSensorAberto) && calib == old(calib) && modalCalibracaoAberto == old(modalCalibracaoAberto)
      {
        assert selects[..s + 1] == selects[..s] + [selects[s]];
        if selects[s] {
          if tipos.None? {
            return;
          }
          var lista := tipos.value;
          var antes := tiposSoloCache;
          var j := 0;
          while j < |lista|
            invariant 0 <= j <= |lista|
            invariant tiposSoloCache == antes + MapaSolos(lista[..j])
            invariant sensoresCache == old(sensoresCache) && tabela == old(tabela) && form == old(form) && titulo == old(titulo)
            invariant modalSensorAberto == old(modalSensorAberto) && calib == old(calib) && modalCalibracaoAberto == old(modalCalibracaoAberto)
          {
            PreencherPasso(antes, lista, j);
            tiposSoloCache := tiposSoloCache[lista[j].nome := lista[j]];
            j := j + 1;
          }
          assert lista[..j] == lista;
          PreencherDeNovo(antes, lista);
        }
        s := s + 1;
      }
      assert selects[..s] == selects;
    }

    /**
     * `carregarSensores` once the request has settled: on success the cache
     * takes `data.sensores` and the table shows it; when that key is missing
     * the cache becomes undefined, `renderizarTabela` throws on `.length` and
     * the catch shows the connection error.
     */
    method CarregarSensores(resposta: RespostaSensores)
      modifies this
      ensures resposta.FalhaRede? ==> tabela == ErroConexao && sensoresCache == old(sensoresCache)
      ensures resposta.Json? && !resposta.success ==> tabela == ErroDados && sensoresCache == old(sensoresCache)
      ensures resposta.Json? && resposta.success ==> sensoresCache == resposta.sensores
      ensures resposta.Json? && resposta.success && resposta.sensores.Some? ==> tabela == TabelaDe(resposta.sensores.value)
      ensures resposta.Json? && resposta.success && resposta.sensores.None? ==> tabela == ErroConexao
      ensures tiposSoloCache == old(tiposSoloCache) && form == old(form) && titulo == old(titulo)
      ensures modalSensorAberto == old(modalSensorAberto) && calib == old(calib) && modalCalibracaoAberto == old(modalCalibracaoAberto)
    {
      tabela := Carregando;
      match resposta {
        case FalhaRede =>
          tabela := ErroConexao;
        case Json(success, sensores) =>
          if success {
            sensoresCache := sensores;
            if sensores.None? {
              tabela := ErroConexao;
              return;
            }
            tabela := TabelaDe(sensores.value);
          } else {
            tabela := ErroDados;
          }
      }
    }

    /**
     * `filtrarSensores`: the table shows the cached sensors the term and
     * status filter match; on an undefined cache `.filter` throws (`lancou`)
     * and nothing changes.
     */
    method FiltrarSensores(termo: string, status: string) returns (lancou: bool)
      modifies this
      ensures lancou <==> sensoresCache.None?
      ensures lancou ==> tabela == old(tabela)
      ensures !lancou ==> tabela == TabelaDe(SensoresFiltrados(sensoresCache.value, termo, status))
      ensures sensoresCache == old(sensoresCache) && tiposSoloCache == old(tiposSoloCache) && form == old(form) && titulo == old(titulo)
      ensures modalSensorAberto == old(modalSensorAberto) && calib == old(calib) && modalCalibracaoAberto == old(modalCalibracaoAberto)
    {
      if sensoresCache.None? {
        return true;
      }
      var filtrados := Filtrar(CriterioSensor(termo, status), sensoresCache.value);
      tabela := TabelaDe(filtrados);
      lancou := false;
    }

    /**
     * `abrirModalSensor(id)`: an empty id opens the cleared form for a new
     * sensor; an id of a cached sensor opens the form filled from it; any other
     * id changes nothing. With an id and an undefined cache, `.find` throws
     * (`lancou`) and nothing changes.
     */
    method AbrirModalSensor(id: string, textoNumero: real -> string) returns (lancou: bool)
      modifies this
      ensures lancou <==> id != "" && sensoresCache.None?
      ensures id == "" ==> form == FormVazio && titulo == NovoSensor && modalSensorAberto
      ensures lancou || (id != "" && Encontrar(PorId(id), sensoresCache.value).None?) ==>
        form == old(form) && titulo == old(titulo) && modalSensorAberto == old(modalSensorAberto)
      ensures id != "" && sensoresCache.Some? && Encontrar(PorId(id), sensoresCache.value).Some? ==>
        var s := Encontrar(PorId(id), sensoresCache.value).value;
        s in sensoresCache.value && Texto.IntParaTexto(s.id) == id
        && form == FormDe(s, textoNumero) && titulo == EditarSensor && modalSensorAberto
      ensures sensoresCache == old(sensoresCache) && tiposSoloCache == old(tiposSoloCache) && tabela == old(tabela)
      ensures calib == old(calib) && modalCalibracaoAberto == old(modalCalibracaoAberto)
    {
      lancou := false;
      if id != "" {
        if sensoresCache.None? {
          return true;
        }
        var achado := Encontrar(PorId(id), sensoresCache.value);
        if achado.None? {
          return;
        }
        form := FormDe(achado.value, textoNumero);
        titulo := EditarSensor;
      } else {
        form := FormVazio;
        titulo := NovoSensor;
      }
      modalSensorAberto := true;
    }

    /** `fecharModalSensor`. */
    method FecharModalSensor()
      modifies this
      ensures !modalSensorAberto
      ensures sensoresCache == old(sensoresCache) && tiposSoloCache == old(tiposSoloCache) && tabela == old(tabela)
      ensures form == old(form) && titulo == old(titulo) && calib == old(calib) && modalCalibracaoAberto == old(modalCalibracaoAberto)
    {
      modalSensorAberto := false;
    }

    /** `atualizarDefaultsSolo`: the selected soil type's thresholds, when the table knows it. */
    method AtualizarDefaultsSolo()
      modifies this
      ensures calib == ComDefaultsSolo(old(calib), tiposSoloCache)
      ensures old(calib).tipoSolo !in tiposSoloCache ==> calib == old(calib)
      ensures sensoresCache == old(sensoresCache) && tiposSoloCache == old(tiposSoloCache) && tabela == old(tabela)
      ensures form == old(form) && titulo == old(titulo) && modalSensorAberto == old(modalSensorAberto)
      ensures modalCalibracaoAberto == old(modalCalibracaoAberto)
    {
      var tipo := calib.tipoSolo;
      if tipo in tiposSoloCache {
        var params := tiposSoloCache[tipo];
        calib := calib.(satCrit := params.saturacaoCritica, satTotal := params.saturacaoTotal,
                        angulo := params.anguloAtritoCritico, coesao := params.coeficienteCoesao);
      }
    }

    /**
     * `abrirModalCalibracao(id)`: for a cached sensor, the form gets the id,
     * the soil type and the thresholds as `CalibracaoPara` describes, and
     * opens; for any other id nothing changes, and on an undefined cache
     * `.find` throws (`lancou`) and nothing changes either.
     */
    method AbrirModalCalibracao(id: string) returns (lancou: bool)
      modifies this
      ensures lancou <==> sensoresCache.None?
      ensures lancou || Encontrar(PorId(id), sensoresCache.value).None? ==>
        calib == old(calib) && modalCalibracaoAberto == old(modalCalibracaoAberto)
      ensures sensoresCache.Some? && Encontrar(PorId(id), sensoresCache.value).Some? ==>
        var s := Encontrar(PorId(id), sensoresCache.value).value;
        s in sensoresCache.value && calib == CalibracaoPara(id, s, old(calib), tiposSoloCache) && modalCalibracaoAberto
      ensures sensoresCache == old(sensoresCache) && tiposSoloCache == old(tiposSoloCache) && tabela == old(tabela)
      ensures form == old(form) && titulo == old(titulo) && modalSensorAberto == old(modalSensorAberto)
    {
      lancou := false;
      if sensoresCache.None? {
        return true;
      }
      var achado := Encontrar(PorId(id), sensoresCache.value);
      if achado.None? {
        return;
      }
      var sensor := achado.value;
      calib := calib.(sensorId := id, tipoSolo := Js.OuTexto(sensor.tipoSolo, "ARENOSO"));
      if Js.NumeroVerdadeiro(sensor.saturacaoCritica) {
        calib := calib.(satCrit := sensor.saturacaoCritica.value,
                        satTotal := Js.OuNumero(sensor.saturacaoTotal, 100.0),
                        angulo := Js.OuNumero(sensor.anguloAtritoCritico, 30.0),
                        coesao := Js.OuNumero(sensor.coeficienteCoesao, 0.0));
      } else {
        AtualizarDefaultsSolo();
      }
      modalCalibracaoAberto := true;
    }

    /** `fecharModalCalibracao`. */
    method FecharModalCalibracao()
      modifies this
      ensures !modalCalibracaoAberto
      ensures sensoresCache == old(sensoresCache) && tiposSoloCache == old(tiposSoloCache) && tabela == old(tabela)
      ensures form == old(form) && titulo == old(titulo) && modalSensorAberto == old(modalSensorAberto) && calib == old(calib)
    {
      modalCalibracaoAberto := false;
    }
  }
}
