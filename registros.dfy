/**
 * The records the API hands to the dashboard, with the fields its rules read.
 * Timestamps are integer milliseconds since the epoch (ISO-string parsing is
 * not part of this model); a JSON `null` or a missing key is `None`, except
 * for an alert's timestamp, where the two differ (`Carimbo`).
 */
module Registros {
  import opened Wrappers

  /** A reading of one sensor (`/medicoes/...` responses). */
  datatype Medicao = Medicao(
    sensorId: int,
    timestamp: int,
    nivelRisco: Option<string>,
    risco: Option<string>,
    indiceRisco: Option<real>,
    umidadeSolo: Option<real>,
    temperaturaSolo: Option<real>,
    umidadeAr: Option<real>,
    temperaturaAr: Option<real>,
    inclinacaoGraus: Option<real>,
    /** `erosao?.taxa`: missing when either the object or its field is. */
    erosaoTaxa: Option<real>,
    /** `sensores?.identificador`: missing when either the object or its field is. */
    identificador: Option<string>,
    alertaChuva: bool)

  /** The `sensores` object embedded in an alert. */
  datatype SensorRef = SensorRef(identificador: string, regiao: string)

  /**
   * An alert's timestamp as the JSON holds it: the key missing (`new Date`
   * of it is an invalid date), `null` (`new Date(null)` is the epoch), or an
   * instant.
   */
  datatype Carimbo = Ausente | Nulo | Em(ms: int)

  /** An alert record (`/alertas/...` responses). */
  datatype Alerta = Alerta(
    id: int,
    sensorId: int,
    tipoAlerta: string,
    nivelCriticidade: string,
    status: string,
    mensagem: string,
    timestamp: Carimbo,
    sensores: Option<SensorRef>)

  /** A sensor as the admin screens list it (`/sensores`). */
  datatype Sensor = Sensor(
    id: int,
    identificador: string,
    tipo: string,
    regiao: string,
    status: string,
    latitude: Option<real>,
    longitude: Option<real>,
    responsavel: Option<string>,
    tipoSolo: Option<string>,
    saturacaoCritica: Option<real>,
    saturacaoTotal: Option<real>,
    anguloAtritoCritico: Option<real>,
    coeficienteCoesao: Option<real>)

  /** A soil type with its default thresholds (`/config/solos`). */
  datatype TipoSolo = TipoSolo(
    nome: string,
    saturacaoCritica: real,
    saturacaoTotal: real,
    anguloAtritoCritico: real,
    coeficienteCoesao: real)

  /**
   * A label shown to the user: either a fixed text, or a date that the page
   * hands to the locale formatter (`toLocaleString` and friends), which this
   * model does not reproduce.
   */
  datatype Rotulo = Fixo(texto: string) | DataLocal(ms: int)

  /**
   * The HTTP request a handler issues: method, the path after the page's
   * `API_URL` prefix, and the JSON body as key/value pairs (`None` is `null`).
   */
  datatype Pedido = Pedido(metodo: string, caminho: string, corpo: seq<(string, Option<string>)>)
}
