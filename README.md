# EroWatch dashboard logic in Dafny

EroWatch is a browser dashboard for soil-erosion sensors. It has a public
side (`javascript/`) and an administration side (`admin/js/`). Nearly every
function fetches JSON from the back end and writes into the DOM. Between the
fetch and the DOM write sits a small rule. This project models those rules
and proves what they promise:

- the system status badge: one reading per sensor, counts per risk level,
  worst case wins;
- alert triage: endpoint choice, filters, counters, row styling, and the
  resolve/ignore request;
- the measurement history: multi-criteria filter, paging, pager buttons,
  CSV export, and the date-input text;
- sensor administration: search, PUT versus POST, empty inputs sent as
  `null`, calibration defaults, and the soil-type cache;
- the admin dashboard: summary cards, the first five pending alerts, the
  alert icon, and relative times;
- the public risk panel: the recommendation table, the risk bar, the
  latest reading, and blinking;
- the light/dark theme toggle.

Modules follow the source files.

| module | file | source |
|---|---|---|
| `Status` | `status_sistema.dfy` | `javascript/status-sistema.js` |
| `Alertas` | `alertas.dfy` | `admin/js/alertas.js` |
| `Historico` | `historico.dfy` | `javascript/historico.js` |
| `Sensores` | `sensores.dfy` | `admin/js/sensores.js` |
| `DashboardAdmin` | `dashboard.dfy` | `admin/js/dashboard.js` |
| `PainelRisco` | `api.dfy` | `javascript/api.js` |
| `Tema` | `theme.dfy` | `javascript/theme.js` |

Shared modules:
- `Wrappers`: `Option`, `Result`.
- `Registros`: the records the server sends.
- `Texto`: decimal rendering, case mapping, `includes`, `split`/`join`.
- `Js`: truthiness, `||`, `??`, `slice`.
- `Sequencias`: the order-preserving filter, `find`, counting.
- `Csv`: reading and quoting comma-separated lines, following section 2
  of RFC 4180.

The source takes its state in three forms, and the model follows.
- Where the source keeps state, the model has a class whose fields are that
  state. Examples are `StatusSistema`, the history module's three globals,
  the alert and sensor caches, and the theme.
- A method of such a class changes its fields in the same order the source
  does. Its `ensures` ties the new state to a specification function.
- Loops in the source stay loops:
  - the `forEach` that builds `sensoresUnicos`;
  - the level counters;
  - the CSV accumulation;
  - the nested soil-cache fill;
  - the pending-alert list.

How JavaScript values become Dafny values:
- A server response is a parameter.
  - `FalhaRede` is a thrown fetch or JSON error.
  - `Json(success, …)` is a parsed body.
- A JSON field the source reads through `||`, `??`, `?.` or a truthiness test is an `Option`. The alert and sensor text fields that the source calls string methods on directly are plain `string`s (see "## Left out").
- Timestamps are milliseconds as `int`.
- The source leans on JavaScript truthiness. `||` replaces a missing value,
  `""` or `0`. `??` replaces only a missing value. The model writes out
  each operator the source uses.

## Model

| member | source | states |
|---|---|---|
| `Status.NivelDe` | javascript/status-sistema.js:67-71 | A reading's level is never NORMAL. A missing or empty `nivel_risco` counts as BAIXO. Text that upper-cases to none of CRITICO, ALTO and MEDIO counts as BAIXO. |
| `Status.CriticoMinusculo` | javascript/status-sistema.js:67-68 | The level is compared after `toUpperCase`, so `critico` counts as CRITICO. |
| `Status.AltoCapitalizado` | javascript/status-sistema.js:67-69 | `Alto` counts as ALTO. |
| `Status.DesconhecidoContaBaixo` | javascript/status-sistema.js:67-71 | An unrecognised level such as `URGENTE` counts as BAIXO. |
| `Status.DeduplicarChaves` | javascript/status-sistema.js:49-58 | The dictionary of kept readings has exactly one key per distinct `sensor_id` of the input. |
| `Status.DeduplicarMantemMaisRecente` | javascript/status-sistema.js:51-56 | Each kept reading is an input reading of its sensor. No other reading of that sensor is newer. On a tie in timestamps, the first one seen stays. |
| `Status.ParticaoNiveis` | javascript/status-sistema.js:66-72 | Each kept reading lands in exactly one of the four buckets. |
| `Status.ResumoSomaTotal` | javascript/status-sistema.js:61-74 | critico+alto+medio+baixo = total = the number of distinct sensor ids. |
| `Status.ResumoVazio` | javascript/status-sistema.js:77-80 | An empty input gives NORMAL with all counts 0. |
| `Status.ContagemPositiva` | javascript/status-sistema.js:66-72 | A level's count is non-zero iff some kept reading has that level. |
| `Status.PiorNivelPrevalece` | javascript/status-sistema.js:76-94 | NORMAL iff there are no readings. Otherwise the level is that of some kept reading and at least as severe as every kept reading. |
| `Status.PiorNivelDoMapa` | javascript/status-sistema.js:80-94 | The precedence rule over a non-empty dictionary of kept readings. |
| `Status.CriticoPrevalece` | javascript/status-sistema.js:51-94 | A CRITICO reading that is strictly the newest of its sensor makes the system CRITICO. |
| `Status.ExemploDoisSensores` | javascript/status-sistema.js:47-105 | Sensor 1 reports ALTO then CRITICO, and sensor 2 reports BAIXO. The result is CRITICO with counts 1/0/0/1 and total 2. |
| `Status.UnicosPorSensor` | javascript/status-sistema.js:49-58 | The `forEach` loop builds exactly the deduplicated dictionary. It also yields the distinct order of its keys. |
| `Status.ContarNiveis` | javascript/status-sistema.js:60-72 | The counting loop's four counters equal the bucket sizes. |
| `Status.Agregar` | javascript/status-sistema.js:47-94 | The two loops together compute the `Resumir` specification. |
| `Status.FormatarTempoFaixas` | javascript/status-sistema.js:159-168 | `agora` under 60 s. `há ⌊d/60⌋m` under an hour. `há ⌊d/3600⌋h` under a day. The locale date after that. |
| `Status.StatusSistema.BuscarStatus` | javascript/status-sistema.js:29-42 | A thrown fetch error sets the Offline badge. `success` false changes nothing. `success` true processes `ultimasMedicoes` (or `[]`). |
| `Status.StatusSistema.ProcessarStatus` | javascript/status-sistema.js:47-111 | Badge and tooltip show `Resumir` of the readings. Last-update time is recorded. |
| `Status.StatusSistema.AtualizarBadge` | javascript/status-sistema.js:116-143 | Badge class, icon and text for the level. The five tooltip counts. The update stamp. |
| `Status.StatusSistema.MostrarErro` | javascript/status-sistema.js:148-154 | The Offline badge. The tooltips and last-update time are untouched. |
| `Alertas.CaminhoAlertas` | admin/js/alertas.js:23-29 | `ativo` selects `/alertas/ativos`. Any other value selects `/alertas/historico?limite=100`. |
| `Alertas.FiltrarAlertasUmaPassada` | admin/js/alertas.js:38-46 | The two successive filters equal one order-preserving filter by both criteria. |
| `Alertas.FiltrarAlertasMembros` | admin/js/alertas.js:38-46 | An alert is in the list iff it was fetched and passes the status filter (unless `ativo`) and the criticality filter (unless empty). |
| `Alertas.FiltrarAlertasSemFiltro` | admin/js/alertas.js:40-46 | `ativo` with no criticality keeps the fetched list whole and in order. |
| `Alertas.CriticidadeVaziaNaoFiltra` | admin/js/alertas.js:44-46 | An empty criticality leaves the status-filtered list as it is. |
| `Alertas.ContadoresLimitados` | admin/js/alertas.js:103-106 | `criticos`, `altos` and their sum are at most the list length. |
| `Alertas.ContadoresExatos` | admin/js/alertas.js:103-106 | Each counter counts exactly the positions holding an active alert at its level: CRITICO for `criticos`, ALTO for `altos`. |
| `Alertas.RegrasDaLinha` | admin/js/alertas.js:72-89 | row-danger iff ativo+CRITICO. row-warning iff ativo+ALTO. row-muted iff not ativo. The two action buttons exist iff ativo. |
| `Alertas.RenderizarTabela` | admin/js/alertas.js:60-101 | The empty message iff there are no alerts. Otherwise one row per alert, in order. |
| `Alertas.FormatarTipo` | admin/js/alertas.js:176-178 | Same length. Each `_` becomes a space. Every other character is kept. |
| `Alertas.FormatarTipoIdempotente` | admin/js/alertas.js:176-178 | Applying the replacement twice equals applying it once. |
| `Alertas.FormatarData` | admin/js/alertas.js:180-183 | `-` exactly for a falsy value, missing or `null`. Otherwise the locale date of the timestamp. |
| `Alertas.PedidoAcao` | admin/js/alertas.js:143-159 | A PUT. `resolver` targets `/resolver` with `resolvido_por`/`observacoes`. Anything else targets `/ignorar` with `ignorado_por`/`motivo`. |
| `Alertas.AutorNuncaVazio` | admin/js/alertas.js:146-150 | The author is never empty. It is `Admin` when the stored user has no truthy `nome`. |
| `Alertas.MensagemAcao` | admin/js/alertas.js:161-172 | The success text for `resolver`/`ignorar`. `Erro: ` plus the error or `Falha na operação`. `Erro de conexão`. |
| `Alertas.ModalPara` | admin/js/alertas.js:120-133 | The modal opens with the id, action and empty observations, and describes the alert as `tipo_alerta: mensagem`. `resolver` gives the title `Resolver Alerta`, the button `Marcar como Resolvido` and `btn-primary`. Any other action gives `Ignorar Alerta (Falso Positivo)`, `Ignorar Alerta` and `btn-danger`. |
| `Alertas.PainelAlertas.CarregarAlertas` | admin/js/alertas.js:16-58 | Endpoint, cache and table from the filtered list. Counters are `Criticos`/`Altos`. The data-error and connection-error tables. |
| `Alertas.PainelAlertas.AbrirModalResolver` | admin/js/alertas.js:114-134 | An id absent from `alertasCache` changes nothing. Otherwise `ModalPara` of the first match. |
| `Alertas.PainelAlertas.FecharModalResolver` | admin/js/alertas.js:136-138 | Only closes the modal. |
| `Alertas.PainelAlertas.ConfirmarAcao` | admin/js/alertas.js:140-173 | The request is `PedidoAcao` of the modal's inputs. The message is `MensagemAcao`. The modal closes and the list reloads exactly on `ok`. |
| `Historico.PassaFiltrosSeAtende` | javascript/historico.js:145-167 | A reading is kept iff it passes every non-empty filter: sensor id, level, start, end. |
| `Historico.FiltragemCaracterizada` | javascript/historico.js:145-167 | `aplicarFiltros` yields an order-preserving subsequence of `todasMedicoes` holding exactly the readings that pass. |
| `Historico.SemFiltrosMantemTudo` | javascript/historico.js:145-167 | With every filter empty, all readings are kept. |
| `Historico.TotalPaginasTeto` | javascript/historico.js:123 | `Math.ceil(n/20)`: 0 iff n = 0, else the least page count covering n. |
| `Historico.PaginaExata` | javascript/historico.js:94-96 | Page p holds exactly the items with index in [(p-1)*20, p*20). That is at most 20. |
| `Historico.PaginaAposLimites` | javascript/historico.js:209-215 | Add the direction, clamp to ≥1, then clamp to ≤ceil(n/20). An empty list gives page 0. An in-range move is kept as is. |
| `Historico.BotoesPaginacao` | javascript/historico.js:122-130 | Previous is disabled iff page = 1. Next is disabled iff page ≥ ceil(n/20). |
| `Historico.Desenhaveis` | javascript/historico.js:99-113 | Rows are drawn up to the first reading without `nivel_risco`, because `toLowerCase` on undefined throws there. |
| `Historico.RenderizarCaracterizada` | javascript/historico.js:80-117 | The table shows the page's items up to the first one without a level. The pager is updated only when no row throws. |
| `Historico.CamposCsv` | javascript/historico.js:241-251 | Nine fields per reading, one under each title, with `Sim`/`Não` for the rain flag. |
| `Historico.DataComVirgulaDesalinha` | javascript/historico.js:237-252 | A date text with a comma makes the unquoted line split into 10 fields under a 9-title header. |
| `Historico.ExemploDataPtBr` | javascript/historico.js:241-252 | With a pt-BR date text `14/10/2026, 10:30:00`, the as-written line has 10 fields. |
| `Historico.LinhaCsvCitadaLegivel` | javascript/historico.js:237-252 | The header reads back as the nine titles. A quoted line reads back as its nine fields, whatever they hold. |
| `Historico.CorpoDeLinhasAnexar` | javascript/historico.js:240-253 | Each `forEach` step appends one line and a line break. |
| `Historico.CsvLegivel` | javascript/historico.js:236-253 | The export splits into the header, one line per filtered reading, and a final empty line. Each line reads back as its reading's fields. |
| `Historico.Pad2Leitura` | javascript/historico.js:296-299 | `padStart(2, '0')` of 0..99 gives two digits that read back as the number. |
| `Historico.FormatarDataInputLeitura` | javascript/historico.js:294-302 | `YYYY-MM-DDTHH:MM`. Each part sits at a fixed position and reads back as year, getMonth()+1, day, hour and minute. |
| `Historico.Historico.RenderizarTabela` | javascript/historico.js:80-117 | The view becomes `Renderizar` of the filtered list at the current page. Nothing else changes. |
| `Historico.Historico.CarregarMedicoes` | javascript/historico.js:54-71 | `todasMedicoes` always takes what the fetch resolved to. For an array, the filtered list copies it and the table is drawn. For anything else the spread throws: the filtered list and table stay, and the error state is set. |
| `Historico.Historico.AplicarFiltros` | javascript/historico.js:139-173 | Throws and changes nothing when `todasMedicoes` is not an array. Otherwise `medicoesFiltradas` becomes its filter and the page goes to 1. |
| `Historico.Historico.LimparFiltros` | javascript/historico.js:178-189 | The filter inputs are emptied first. Then, when `todasMedicoes` is not an array, the spread throws and nothing else changes. Otherwise `medicoesFiltradas` becomes a copy of all readings and the page goes to 1. |
| `Historico.Historico.MudarPagina` | javascript/historico.js:209-221 | The page becomes `PaginaApos`. The table is redrawn. |
| `Historico.Historico.ExportarCsv` | javascript/historico.js:230-270 | Nothing for an empty list. Otherwise the header, a line break, and each reading's line plus a line break. Lines are built by the loop with quoting as corrected below. |
| `Historico.Historico.ConfigurarDatasDefault` | javascript/historico.js:194-200 | End is now and start is 24 h earlier, both formatted for the date input. |
| `Sensores.MapaSolosChaves` | admin/js/sensores.js:35-38 | `tiposSoloCache` has a key iff some soil type has that `nome`. |
| `Sensores.MapaSolosUltimoVence` | admin/js/sensores.js:35-38 | On duplicate names, the later entry wins. |
| `Sensores.PainelSensores.CarregarTiposSolo` | admin/js/sensores.js:19-49 | On success, the cache is rebuilt from the list (empty when no select exists). Otherwise the cache is untouched. |
| `Sensores.SensoresFiltradosCaracterizados` | admin/js/sensores.js:115-128 | An order-preserving subsequence of `sensoresCache`. A sensor is kept iff the lower-cased term occurs in its lower-cased identifier or region, and the status is `todos` or equal. |
| `Sensores.TermoVazioCasaTodos` | admin/js/sensores.js:119-125 | The empty term with `todos` keeps every sensor. |
| `Sensores.NuloSeVazio` | admin/js/sensores.js:176-180 | `value \|\| null`: `null` exactly for the empty text. |
| `Sensores.PedidoSensorRegras` | admin/js/sensores.js:171-184 | POST `/sensores` iff the id is empty, else PUT `/sensores/{id}`. The four nullable keys are `null` iff empty. The rest are sent as typed. All eight keys are distinct. |
| `Sensores.EditarSensorPedido` | admin/js/sensores.js:138-184 | Saving an unchanged edit form sends PUT to the sensor's path. Falsy coordinates, soil type and critical saturation become `null`. |
| `Sensores.NovoSensorPedido` | admin/js/sensores.js:155-184 | Saving the reset new-sensor form sends POST with every nullable key `null`. |
| `Sensores.CalibracaoDefaults` | admin/js/sensores.js:243-255 | Soil type defaults to ARENOSO. With a truthy `saturacao_critica`, the others fall back to 100/30/0 via `\|\|`, so a stored 0 becomes the default. Otherwise the soil type's defaults apply. |
| `Sensores.ComDefaultsSoloIdempotente` | admin/js/sensores.js:265-276 | Applying the soil defaults twice equals applying them once. |
| `Sensores.TabelaDe` | admin/js/sensores.js:76-84 | The empty state iff there are no sensors. Otherwise rows for exactly those sensors. |
| `Sensores.PainelSensores.CarregarSensores` | admin/js/sensores.js:54-74 | On success the cache takes `data.sensores`. The table shows it, or the connection error when that key is missing, because the render then throws on `.length`. A refused body shows the data error. A thrown request shows the connection error. |
| `Sensores.PainelSensores.FiltrarSensores` | admin/js/sensores.js:115-128 | Throws and changes nothing on an undefined cache. Otherwise the table shows `SensoresFiltrados` of the cache. |
| `Sensores.PainelSensores.AbrirModalSensor` | admin/js/sensores.js:133-162 | An empty id opens the reset form as New. With an id, an undefined cache throws and changes nothing. An id absent from the cache changes nothing. A cached one fills the form from the sensor as Edit. |
| `Sensores.PainelSensores.FecharModalSensor` | admin/js/sensores.js:164-166 | Only closes the modal. |
| `Sensores.PainelSensores.AtualizarDefaultsSolo` | admin/js/sensores.js:265-276 | Copies the soil type's four parameters. An unknown type changes nothing. |
| `Sensores.PainelSensores.AbrirModalCalibracao` | admin/js/sensores.js:233-259 | An undefined cache throws and changes nothing. An id absent from the cache changes nothing. Otherwise `CalibracaoPara` and the modal opens. |
| `Sensores.PainelSensores.FecharModalCalibracao` | admin/js/sensores.js:261-263 | Only closes the modal. |
| `DashboardAdmin.ContarAtivos` | admin/js/dashboard.js:20-21 | `ativos` is the length of the filter by `ativo` and is at most the total. |
| `DashboardAdmin.ContarAtivosPosicoes` | admin/js/dashboard.js:21 | `ativos` counts exactly the positions holding an active sensor. |
| `DashboardAdmin.TendenciaAlertas` | admin/js/dashboard.js:38-44 | The critical trend message iff `criticos` > 0. |
| `DashboardAdmin.CartaoAlertasDe` | admin/js/dashboard.js:32-44 | The card value is `criticos + altos`, with that trend. |
| `DashboardAdmin.PainelAdmin.CarregarStats` | admin/js/dashboard.js:13-59 | Both cards come from their responses. A throw stops everything after it. An unsuccessful body skips only its card. `Online` is set iff nothing threw. |
| `DashboardAdmin.PrioritariosPrefixo` | admin/js/dashboard.js:76 | The first min(5, n) alerts in server order. |
| `DashboardAdmin.IconePrioridade` | admin/js/dashboard.js:116-122 | Each icon iff its keyword occurs and no earlier keyword does. `warning` iff none occurs. |
| `DashboardAdmin.ChuvaAntesDeSaturacao` | admin/js/dashboard.js:117-118 | `CHUVA_SATURACAO` gets the rain icon. |
| `DashboardAdmin.FormatarTempoFaixas` | admin/js/dashboard.js:124-133 | m = ⌊Δ/60000⌋. `m min atrás` under an hour. `h h atrás` under a day. The locale date after that. |
| `DashboardAdmin.TempoSemData` | admin/js/dashboard.js:124-133 | A missing timestamp reads `Invalid Date`. A `null` one is the epoch, so from a day after it on the entry shows the epoch's locale date. |
| `DashboardAdmin.ItensDe` | admin/js/dashboard.js:78-100 | One item per alert, in order. |
| `DashboardAdmin.PainelAdmin.CarregarAlertasPendentes` | admin/js/dashboard.js:64-114 | Items for the first five alerts when there are some. The all-clear state when the list is empty or `success` is false. The error text when something throws. |
| `PainelRisco.RecomendacaoPorNivel` | javascript/api.js:224-233 | CRITICO/ALTO/MEDIO/BAIXO each get their own text. Every other or missing key gets the DESCONHECIDO text, names inherited from `Object.prototype` aside. |
| `PainelRisco.TextosDistintos` | javascript/api.js:225-231 | The five texts are pairwise distinct. |
| `PainelRisco.UltimaMedicao` | javascript/api.js:147-151 | `ultimasMedicoes[0]`, else `data[0]`, else none. |
| `PainelRisco.PrepararDadosRegras` | javascript/api.js:156-166 | The level is `nivel_risco`, then `risco`, then DESCONHECIDO via `\|\|`, and never empty. Numbers use `??`, so a real 0 is kept. The recommendation is the level's. |
| `PainelRisco.PercentualLimitado` | javascript/api.js:327 | The bar width is the index clamped to [0,100]. |
| `PainelRisco.CorBarraFaixas` | javascript/api.js:331-339 | Red above 75, orange above 55, yellow above 30, else green. The colour is monotone in the percentage. |
| `PainelRisco.RenderizarRegras` | javascript/api.js:310-355 | Blinks iff the level is exactly `CRITICO`. Index and bar only when an index is given, with width in [0,100]. Recommendation only when given. |
| `PainelRisco.RenderizarIdempotente` | javascript/api.js:310-355 | Rendering the same data twice equals rendering it once. |
| `PainelRisco.AtualizacaoMostraUltima` | javascript/api.js:135-171 | The intended update changes nothing without statistics or a reading. Otherwise it shows the latest reading's level, blink, bar and recommendation. |
| `PainelRisco.AtualizacaoNuncaOcorre` | javascript/api.js:291-314 | The no-argument call reaches the 310 renderer and throws for every server state, even a critical reading. |
| `PainelRisco.Painel.Exibir` | javascript/api.js:310-355 | The panel's elements become `Renderizar` of the data. |
| `PainelRisco.Painel.Atualizar` | javascript/api.js:135-171 | The elements become `AtualizacaoPretendida`. |
| `PainelRisco.Painel.ExibirSeDefinido` | javascript/api.js:310-355 | Throws iff `dados` is undefined, and then leaves every element as it was. Otherwise the elements become `Renderizar` of the data. |
| `PainelRisco.Painel.AtualizarSemArgumento` | javascript/api.js:291-294 | The call throws, exactly as `AtualizacaoComoEscrita` says, because it reaches `ExibirSeDefinido` with no data. The panel is unchanged. |
| `PainelRisco.Painel.AoCarregar` | javascript/api.js:291-295 | The load listener's first call throws, so `setInterval` is never reached: no periodic update is scheduled and the panel is unchanged. |
| `Tema.TemaInicialRegras` | javascript/theme.js:17-28 | Dark iff the stored value is `dark`, or nothing (absent or empty) is stored and the system prefers dark. Otherwise light. |
| `Tema.AlternarRegras` | javascript/theme.js:33-41 | Light iff the current theme is dark. Two toggles restore dark or light. |
| `Tema.RotuloRegras` | javascript/theme.js:44-54 | The label is `Modo Claro` iff the theme is dark. |
| `Tema.ThemeManager.AplicarTemaSalvo` | javascript/theme.js:17-30 | The attribute becomes `TemaInicial`. Storage is untouched. The button is relabelled. |
| `Tema.ThemeManager.AlternarTema` | javascript/theme.js:33-41 | The attribute flips. Storage is updated under `erowatch_theme` and nowhere else, so the stored value equals the attribute. The button is relabelled. |
| `Tema.ThemeManager.AtualizarIcone` | javascript/theme.js:44-54 | The label is rewritten only when the button exists. |
| `Tema.ThemeManager.Iniciar` | javascript/theme.js:11-63 | Applies the saved theme and labels the button. |

## Left out

- HTTP traffic, timers (`setInterval`) and the races between overlapping responses. Responses are parameters.
- DOM templates, `classList` details, `alert`/`confirm`, `scrollIntoView` and Blob download. They are presentation; the model keeps only the values written.
- Locale and time-zone formatting (`toLocaleString`, `toLocaleDateString`) and `Date` parsing of ISO strings. A timestamp is already integer milliseconds. A locale date is the value `DataLocal(ms)`, or a parameter where its text matters.
- Date parsing in the history filters is a parameter that stands for `new Date(valor)`. The sensor filter's loose `!=` is modelled as comparison of the decimal text.
- `Number#toFixed` and `parseFloat`: the soil cards in `javascript/api.js:173-216`, the index text, and the numbers in the history table and CSV. Number texts are parameters.
- `Texto.Maiusculas`/`Texto.Minusculas`: cover ASCII and the two letters whose upper case is a single ASCII letter. Other Unicode case mappings are not modelled.
- `salvarCalibracao`, `deletarSensor` and `atualizarValoresCalib` in `admin/js/sensores.js`. They are network calls and label echoes.
- `Sensores.PainelSensores.AbrirModalSensor`: `form.reset()` restores the page's default values, taken here as empty. A select whose value has no matching option reads as empty text in the browser; the model keeps the text.
- `Sensores.PainelSensores.AbrirModalCalibracao` and `Sensores.CalibracaoPara`: the soil-type select takes `tipo_solo || 'ARENOSO'` as text. When no option has that value (for example before the soil types are loaded), the browser reads it as empty text; the model keeps the text.
- Calibration inputs are modelled as numbers, not the texts the inputs hold.
- `DashboardAdmin.PainelAdmin.CarregarStats`: `por_criticidade` counts are integers; a missing count (`undefined`) is not modelled.
- `javascript/api.js:236-288`, the second `atualizarDashboard`: shadowed by the third declaration, so no call reaches it.
- `PainelRisco.RecomendacaoPorNivel`: names inherited from `Object.prototype` (`constructor`, `toString`, `valueOf`, `__proto__`, ...) make `recomendacoes[nivelRisco]` a truthy built-in, so `||` does not fall back to DESCONHECIDO. The model treats them as unknown keys.
- Other lookups by a text key (the soil-type table in `admin/js/sensores.js`) likewise take inherited `Object.prototype` names as absent keys.
- Missing or `null` alert and sensor text fields are not modelled. `tipo_alerta`, `nivel_criticidade`, `status` and `mensagem` of an alert, and `identificador`, `tipo`, `regiao` and `status` of a sensor, are always-present `string`s. In the source a missing one makes a string method throw a TypeError:
  - at `admin/js/dashboard.js:80`, `:89` and `:117`, which `carregarAlertasPendentes` catches and shows "Erro ao carregar alertas." (`admin/js/dashboard.js:110-113`);
  - at `admin/js/alertas.js:88` and `:95`, which `carregarAlertas` catches and shows the "Erro de conexão" table (`admin/js/alertas.js:54-57`);
  - at `admin/js/sensores.js:99-100`, which `carregarSensores` catches and shows the same error table (`admin/js/sensores.js:70-73`);
  - at `admin/js/sensores.js:120-121`, where `filtrarSensores` throws uncaught.
- Timestamps given as text that `Date` cannot parse are not modelled; an alert's timestamp is missing, `null` or an instant.
- `javascript/script.js` (Chart.js configuration), `admin/js/auth.js` and `admin/js/config.js` are not part of this model.
- `window.EroWatchAPI` and the other fetch helpers in `javascript/api.js:16-131` are network calls.

## Findings

| source | as written | input that shows it | evidently intended | confidence | as-written member | corrected member |
|---|---|---|---|---|---|---|
| javascript/historico.js:241-252, 279-289 | Each line is `linha.join(',')` with no quoting, but the first field is `formatarData`, whose pt-BR text writes a comma between date and time. | A reading at 14/10/2026 10:30:00: its line splits into 10 fields under the 9-title header. | Fields quoted as section 2 of RFC 4180 describes, so each line reads back as its nine fields. | medium, not executed | `Historico.ExemploDataPtBr` | `Historico.LinhaCsvCitadaLegivel` |
| javascript/api.js:291-295 | `atualizarDashboard` is declared three times and the last declaration (line 310), the renderer taking `dados`, wins. The single load call passes no argument, so line 314 reads `nivel_risco` of undefined (line 319 reads `indice_risco` when there is no `#status-geral`). The throw ends the listener before `setInterval` (line 293) is reached, so no polling is scheduled. | Any server state, for example a latest reading with level CRITICO: the call throws before fetching, and the panel never updates. | The fetching update of line 135: fetch the statistics, take the latest reading, render it. | high, not executed | `PainelRisco.AtualizacaoNuncaOcorre` | `PainelRisco.AtualizacaoMostraUltima` |
