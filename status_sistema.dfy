/**
 * The system status badge (javascript/status-sistema.js): from the latest
 * readings it keeps one reading per sensor, counts the sensors per risk level
 * and shows the worst level present, or NORMAL when no sensor reports.
 */
module Status {
  import opened Wrappers
  import opened Registros
  import Texto
  import Js

  /** The badge levels; a reading always counts as one of the last four. */
  datatype Nivel = Normal | Baixo | Medio | Alto | Critico

  /** The order of severity the badge follows (the worst case prevails). */
  function Gravidade(n: Nivel): nat {
    match n
    case Normal => 0
    case Baixo => 1
    case Medio => 2
    case Alto => 3
    case Critico => 4
  }

  /** The level's name as the badge text shows it. */
  function Nome(n: Nivel): string {
    match n
    case Normal => "NORMAL"
    case Baixo => "BAIXO"
    case Medio => "MEDIO"
    case Alto => "ALTO"
    case Critico => "CRITICO"
  }

  /** The badge icon for each level. */
  function Icone(n: Nivel): string {
    match n
    case Normal => "\U{2705}"
    case Critico => "\U{1F534}"
    case Alto => "\U{1F7E0}"
    case Medio => "\U{1F7E1}"
    case Baixo => "\U{1F7E2}"
  }

  /**
   * The level a reading counts as: a missing or empty `nivel_risco` reads as
   * "BAIXO", the text is upper-cased, and anything other than CRITICO, ALTO or
   * MEDIO counts as BAIXO.
   */
  function NivelDe(m: Medicao): (n: Nivel)
    ensures n != Normal
    ensures !Js.TextoVerdadeiro(m.nivelRisco) ==> n == Baixo
    ensures Texto.Maiusculas(Js.OuTexto(m.nivelRisco, "BAIXO")) !in {"CRITICO", "ALTO", "MEDIO"} ==> n == Baixo
  {
    var s := Texto.Maiusculas(Js.OuTexto(m.nivelRisco, "BAIXO"));
    if s == "CRITICO" then Critico
    else if s == "ALTO" then Alto
    else if s == "MEDIO" then Medio
    else Baixo
  }

  // ---------------------------------------------------------------------------
  // Step 1: one reading per sensor
  // ---------------------------------------------------------------------------

  /** One pass of the `forEach`: a reading is stored if its sensor is new or it is strictly newer. */
  function Guardar(u: map<int, Medicao>, m: Medicao): map<int, Medicao> {
    if m.sensorId !in u || m.timestamp > u[m.sensorId].timestamp then u[m.sensorId := m] else u
  }

  /** The `sensoresUnicos` dictionary after the `forEach` over `ms`. */
  function Deduplicar(ms: seq<Medicao>): map<int, Medicao>
    decreases |ms|
  {
    if ms == [] then map[] else Guardar(Deduplicar(ms[..|ms| - 1]), ms[|ms| - 1])
  }

  /** The distinct sensor ids present in `ms`. */
  function SensoresDe(ms: seq<Medicao>): set<int> {
    set i | 0 <= i < |ms| :: ms[i].sensorId
  }

  /**
   * Position `i` holds the reading kept for sensor `k`: it is a reading of `k`,
   * no reading of `k` is newer, and every earlier reading of `k` is strictly
   * older (on a tie the first one seen stays).
   */
  ghost predicate EhMantida(ms: seq<Medicao>, k: int, i: int) {
    && 0 <= i < |ms|
    && ms[i].sensorId == k
    && (forall j :: 0 <= j < |ms| && ms[j].sensorId == k ==> ms[j].timestamp <= ms[i].timestamp)
    && (forall j :: 0 <= j < i && ms[j].sensorId == k ==> ms[j].timestamp < ms[i].timestamp)
  }

  /** The dictionary has exactly one entry per distinct sensor id of the input. */
  lemma {:induction false} DeduplicarChaves(ms: seq<Medicao>)
    ensures Deduplicar(ms).Keys == SensoresDe(ms)
    decreases |ms|
  {
    if ms != [] {
      var n := |ms| - 1;
      DeduplicarChaves(ms[..n]);
      assert SensoresDe(ms) == SensoresDe(ms[..n]) + {ms[n].sensorId} by {
        forall k | k in SensoresDe(ms)
          ensures k in SensoresDe(ms[..n]) + {ms[n].sensorId}
        {
          var i :| 0 <= i < |ms| && ms[i].sensorId == k;
          if i < n {
            assert ms[..n][i] == ms[i];
          }
        }
        forall k | k in SensoresDe(ms[..n])
          ensures k in SensoresDe(ms)
        {
          var i :| 0 <= i < n && ms[..n][i].sensorId == k;
          assert ms[i] == ms[..n][i];
        }
      }
    }
  }

  /** Position `i` of a prefix keeps its property when a reading of another sensor is appended. */
  lemma MantidaOutroSensor(ms: seq<Medicao>, k: int, i: int)
    requires |ms| > 0 && ms[|ms| - 1].sensorId != k
    requires EhMantida(ms[..|ms| - 1], k, i)
    ensures EhMantida(ms, k, i)
  {
    var n := |ms| - 1;
    forall j | 0 <= j < |ms| && ms[j].sensorId == k
      ensures ms[j].timestamp <= ms[i].timestamp
    {
      assert j < n && ms[..n][j] == ms[j] && ms[..n][i] == ms[i];
    }
    forall j | 0 <= j < i && ms[j].sensorId == k
      ensures ms[j].timestamp < ms[i].timestamp
    {
      assert ms[..n][j] == ms[j] && ms[..n][i] == ms[i];
    }
  }

  /** A first reading of sensor `k`, appended last, is the one kept for `k`. */
  lemma MantidaNova(ms: seq<Medicao>, k: int)
    requires |ms| > 0 && ms[|ms| - 1].sensorId == k
    requires k !in SensoresDe(ms[..|ms| - 1])
    ensures EhMantida(ms, k, |ms| - 1)
  {
    var n := |ms| - 1;
    forall j | 0 <= j < n
      ensures ms[j].sensorId != k
    {
      assert ms[..n][j] == ms[j];
      assert ms[..n][j].sensorId in SensoresDe(ms[..n]);
    }
  }

  /**
   * A reading of sensor `k` appended last replaces the kept one iff it is
   * strictly newer.
   */
  lemma MantidaComparada(ms: seq<Medicao>, k: int, i: int)
    requires |ms| > 0 && ms[|ms| - 1].sensorId == k
    requires EhMantida(ms[..|ms| - 1], k, i)
    ensures ms[|ms| - 1].timestamp > ms[i].timestamp ==> EhMantida(ms, k, |ms| - 1)
    ensures ms[|ms| - 1].timestamp <= ms[i].timestamp ==> EhMantida(ms, k, i)
  {
    var n := |ms| - 1;
    assert ms[..n][i] == ms[i];
    forall j | 0 <= j < n && ms[j].sensorId == k
      ensures ms[j].timestamp <= ms[i].timestamp
    {
      assert ms[..n][j] == ms[j];
    }
    forall j | 0 <= j < i && ms[j].sensorId == k
      ensures ms[j].timestamp < ms[i].timestamp
    {
      assert ms[..n][j] == ms[j];
    }
  }

  /**
   * Every kept reading is an input reading of its own sensor: the newest one,
   * and among equally new ones the first.
   */
  lemma {:induction false} DeduplicarMantemMaisRecente(ms: seq<Medicao>, k: int)
    requires k in Deduplicar(ms)
    ensures exists i :: EhMantida(ms, k, i) && ms[i] == Deduplicar(ms)[k]
    decreases |ms|
  {
    var n := |ms| - 1;
    var m := ms[n];
    var u0 := Deduplicar(ms[..n]);
    assert Deduplicar(ms) == Guardar(u0, m);
    DeduplicarChaves(ms[..n]);
    if k !in u0 {
      MantidaNova(ms, k);
    } else {
      DeduplicarMantemMaisRecente(ms[..n], k);
      var i :| EhMantida(ms[..n], k, i) && ms[..n][i] == u0[k];
      assert ms[i] == u0[k];
      if k != m.sensorId {
        MantidaOutroSensor(ms, k, i);
      } else {
        MantidaComparada(ms, k, i);
      }
    }
  }

  // ---------------------------------------------------------------------------
  // Step 2 and 3: counts and the worst level
  // ---------------------------------------------------------------------------

  /** The sensors whose kept reading counts as level `n`. */
  function ComNivel(u: map<int, Medicao>, n: Nivel): set<int> {
    set k | k in u && NivelDe(u[k]) == n
  }

  /** What the badge and its tooltip show. */
  datatype Resumo = Resumo(nivel: Nivel, critico: nat, alto: nat, medio: nat, baixo: nat, total: nat)

  /** The worst-case rule: NORMAL without sensors, else the highest level with a non-zero count. */
  function NivelGeral(critico: nat, alto: nat, medio: nat, total: nat): Nivel {
    if total == 0 then Normal
    else if critico > 0 then Critico
    else if alto > 0 then Alto
    else if medio > 0 then Medio
    else Baixo
  }

  /** The status `processarStatus` derives from a batch of readings. */
  function Resumir(ms: seq<Medicao>): Resumo {
    var u := Deduplicar(ms);
    var critico, alto, medio := |ComNivel(u, Critico)|, |ComNivel(u, Alto)|, |ComNivel(u, Medio)|;
    Resumo(NivelGeral(critico, alto, medio, |u|), critico, alto, medio, |ComNivel(u, Baixo)|, |u|)
  }

  /** Every kept reading lands in exactly one of the four buckets. */
  lemma ParticaoNiveis(u: map<int, Medicao>)
    ensures |ComNivel(u, Critico)| + |ComNivel(u, Alto)| + |ComNivel(u, Medio)| + |ComNivel(u, Baixo)| == |u|
  {
    var c, a, m, b := ComNivel(u, Critico), ComNivel(u, Alto), ComNivel(u, Medio), ComNivel(u, Baixo);
    assert c * a == {} && (c + a) * m == {} && (c + a + m) * b == {};
    forall k | k in u
      ensures k in c + a + m + b
    {
      var nivel := NivelDe(u[k]);
      assert nivel == Critico || nivel == Alto || nivel == Medio || nivel == Baixo;
    }
    assert u.Keys == c + a + m + b;
    assert |c + a| == |c| + |a|;
    assert |c + a + m| == |c + a| + |m|;
    assert |c + a + m + b| == |c + a + m| + |b|;
  }

  /** critico + alto + medio + baixo = total = number of distinct sensor ids. */
  lemma ResumoSomaTotal(ms: seq<Medicao>)
    ensures var r := Resumir(ms);
      r.critico + r.alto + r.medio + r.baixo == r.total == |SensoresDe(ms)|
  {
    ParticaoNiveis(Deduplicar(ms));
    DeduplicarChaves(ms);
  }

  /** No readings: NORMAL with every count 0. */
  lemma ResumoVazio()
    ensures Resumir([]) == Resumo(Normal, 0, 0, 0, 0, 0)
  {
    assert ComNivel(map[], Critico) == {};
    assert ComNivel(map[], Alto) == {};
    assert ComNivel(map[], Medio) == {};
    assert ComNivel(map[], Baixo) == {};
  }

  /** A level's count is non-zero iff some sensor's kept reading has that level. */
  lemma ContagemPositiva(u: map<int, Medicao>, n: Nivel)
    ensures |ComNivel(u, n)| > 0 <==> exists k :: k in u && NivelDe(u[k]) == n
  {
    var s := ComNivel(u, n);
    if exists k :: k in u && NivelDe(u[k]) == n {
      var k :| k in u && NivelDe(u[k]) == n;
      assert k in s;
    } else {
      assert s == {};
    }
  }

  /**
   * The badge shows the worst level present: with readings, the level is that
   * of some sensor's kept reading and at least as severe as every other;
   * without readings it is NORMAL.
   */
  lemma PiorNivelPrevalece(ms: seq<Medicao>)
    ensures ms == [] ==> Resumir(ms).nivel == Normal
    ensures ms != [] ==> var u, r := Deduplicar(ms), Resumir(ms);
      && r.nivel != Normal
      && (exists k :: k in u && NivelDe(u[k]) == r.nivel)
      && (forall k :: k in u ==> Gravidade(NivelDe(u[k])) <= Gravidade(r.nivel))
  {
    var u := Deduplicar(ms);
    if ms != [] {
      DeduplicarChaves(ms);
      assert ms[0].sensorId in SensoresDe(ms);
      PiorNivelDoMapa(u, ms[0].sensorId);
    }
  }

  /** The worst-case rule over a dictionary of kept readings holding at least the key `k0`. */
  lemma PiorNivelDoMapa(u: map<int, Medicao>, k0: int)
    requires k0 in u
    ensures var n := NivelGeral(|ComNivel(u, Critico)|, |ComNivel(u, Alto)|, |ComNivel(u, Medio)|, |u|);
      && n != Normal
      && (exists k :: k in u && NivelDe(u[k]) == n)
      && (forall k :: k in u ==> Gravidade(NivelDe(u[k])) <= Gravidade(n))
  {
    ContagemPositiva(u, Critico);
    ContagemPositiva(u, Alto);
    ContagemPositiva(u, Medio);
    var n := NivelGeral(|ComNivel(u, Critico)|, |ComNivel(u, Alto)|, |ComNivel(u, Medio)|, |u|);
    assert |u| > 0 by {
      assert k0 in u.Keys;
    }
    if n == Baixo {
      assert NivelDe(u[k0]) == Baixo;
    }
  }

  /**
   * A critical reading that is strictly the newest of its sensor makes the
   * whole system CRITICO, whatever the other sensors report.
   */
  lemma CriticoPrevalece(ms: seq<Medicao>, i: int)
    requires 0 <= i < |ms| && NivelDe(ms[i]) == Critico
    requires forall j :: 0 <= j < |ms| && j != i && ms[j].sensorId == ms[i].sensorId ==> ms[j].timestamp < ms[i].timestamp
    ensures Resumir(ms).nivel == Critico
  {
    var k := ms[i].sensorId;
    var u := Deduplicar(ms);
    DeduplicarChaves(ms);
    assert k in SensoresDe(ms);
    DeduplicarMantemMaisRecente(ms, k);
    var i' :| EhMantida(ms, k, i') && ms[i'] == u[k];
    assert i' == i;
    ContagemPositiva(u, Critico);
  }

  /** Sensor 1 reports ALTO and later CRITICO, sensor 2 reports BAIXO in between. */
  function LeiturasExemplo(base: Medicao): seq<Medicao> {
    [base.(sensorId := 1, timestamp := 1000, nivelRisco := Some("ALTO")),
     base.(sensorId := 1, timestamp := 2000, nivelRisco := Some("CRITICO")),
     base.(sensorId := 2, timestamp := 1500, nivelRisco := Some("BAIXO"))]
  }

  /** The example keeps sensor 1's later reading and sensor 2's only one. */
  lemma ExemploDeduplicado(base: Medicao)
    ensures var ms := LeiturasExemplo(base);
      Deduplicar(ms) == map[1 := ms[1], 2 := ms[2]]
  {
    var ms := LeiturasExemplo(base);
    assert ms[..2] == [ms[0], ms[1]] && ms[..2][..1] == [ms[0]] && ms[..2][..1][..0] == [];
    assert Deduplicar([ms[0]]) == map[1 := ms[0]];
    assert Deduplicar([ms[0], ms[1]]) == map[1 := ms[1]];
  }

  /** Which of two sensors, 1 and 2, count as level `n`. */
  lemma ComNivelDeDois(m1: Medicao, m2: Medicao, n: Nivel)
    ensures ComNivel(map[1 := m1, 2 := m2], n) == (if NivelDe(m1) == n then {1} else {}) + (if NivelDe(m2) == n then {2} else {})
  {
  }

  /** `CRITICO` and `BAIXO`, already upper-case, count as themselves. */
  lemma NiveisDoExemplo(m: Medicao)
    ensures NivelDe(m.(nivelRisco := Some("CRITICO"))) == Critico
    ensures NivelDe(m.(nivelRisco := Some("BAIXO"))) == Baixo
  {
    Texto.MaiusculasFixas("CRITICO");
    Texto.MaiusculasFixas("BAIXO");
  }

  /** `critico` upper-cases to CRITICO and so counts as CRITICO. */
  lemma CriticoMinusculo(m: Medicao)
    ensures NivelDe(m.(nivelRisco := Some("critico"))) == Critico
  {
    var r := Texto.Maiusculas("critico");
    assert r[0] == 'C' && r[1] == 'R' && r[2] == 'I' && r[3] == 'T' && r[4] == 'I' && r[5] == 'C' && r[6] == 'O';
    assert r == "CRITICO";
  }

  /** `Alto` upper-cases to ALTO and so counts as ALTO. */
  lemma AltoCapitalizado(m: Medicao)
    ensures NivelDe(m.(nivelRisco := Some("Alto"))) == Alto
  {
    var r := Texto.Maiusculas("Alto");
    assert r[0] == 'A' && r[1] == 'L' && r[2] == 'T' && r[3] == 'O';
    assert r == "ALTO";
  }

  /** Text that upper-cases to none of the three names, such as `URGENTE`, counts as BAIXO. */
  lemma DesconhecidoContaBaixo(m: Medicao)
    ensures NivelDe(m.(nivelRisco := Some("URGENTE"))) == Baixo
  {
    var r := Texto.Maiusculas("URGENTE");
    assert r[0] == 'U';
  }

  /** The example's kept readings are one critical and one low. */
  lemma ExemploNiveis(base: Medicao)
    ensures var ms := LeiturasExemplo(base); var u := map[1 := ms[1], 2 := ms[2]];
      && ComNivel(u, Critico) == {1} && ComNivel(u, Alto) == {} && ComNivel(u, Medio) == {} && ComNivel(u, Baixo) == {2}
  {
    var ms := LeiturasExemplo(base);
    NiveisDoExemplo(base.(sensorId := 1, timestamp := 2000));
    NiveisDoExemplo(base.(sensorId := 2, timestamp := 1500));
    assert ms[1] == base.(sensorId := 1, timestamp := 2000).(nivelRisco := Some("CRITICO"));
    assert ms[2] == base.(sensorId := 2, timestamp := 1500).(nivelRisco := Some("BAIXO"));
    ComNivelDeDois(ms[1], ms[2], Critico);
    ComNivelDeDois(ms[1], ms[2], Alto);
    ComNivelDeDois(ms[1], ms[2], Medio);
    ComNivelDeDois(ms[1], ms[2], Baixo);
  }

  /** The example's badge is CRITICO with one critical and one low sensor. */
  lemma ExemploDoisSensores(base: Medicao)
    ensures Resumir(LeiturasExemplo(base)) == Resumo(Critico, 1, 0, 0, 1, 2)
  {
    var ms := LeiturasExemplo(base);
    ExemploDeduplicado(base);
    ExemploNiveis(base);
    var u := map[1 := ms[1], 2 := ms[2]];
    assert |u| == 2;
  }

  // ---------------------------------------------------------------------------
  // processarStatus as a loop over the readings
  // ---------------------------------------------------------------------------

  /** No value occurs twice in `s`. */
  ghost predicate Distintos(s: seq<int>) {
    forall a, b :: 0 <= a < b < |s| ==> s[a] != s[b]
  }

  /** The sensors among the keys `ks` whose kept reading counts as level `n`. */
  ghost function NivelEntre(u: map<int, Medicao>, ks: seq<int>, n: Nivel): set<int> {
    set k | k in ks && k in u && NivelDe(u[k]) == n
  }

  /** How many of the keys `ks` have a kept reading of level `n`, counted one key at a time. */
  ghost function ContaEntre(u: map<int, Medicao>, ks: seq<int>, n: Nivel): nat
    decreases |ks|
  {
    if ks == [] then 0
    else ContaEntre(u, ks[..|ks| - 1], n) + (if ks[|ks| - 1] in u && NivelDe(u[ks[|ks| - 1]]) == n then 1 else 0)
  }

  /** A key not yet listed adds one to the size of its own level set and nothing to the others. */
  lemma NivelEntreAnexar(u: map<int, Medicao>, ks: seq<int>, x: int, n: Nivel)
    requires x !in ks
    ensures |NivelEntre(u, ks + [x], n)| == |NivelEntre(u, ks, n)| + (if x in u && NivelDe(u[x]) == n then 1 else 0)
  {
    var antes, depois := NivelEntre(u, ks, n), NivelEntre(u, ks + [x], n);
    if x in u && NivelDe(u[x]) == n {
      assert depois == antes + {x};
    } else {
      assert depois == antes;
    }
  }

  /** Over duplicate-free keys, counting one at a time gives the size of the level set. */
  lemma {:induction false} ContaEntreConjunto(u: map<int, Medicao>, ks: seq<int>, n: Nivel)
    requires Distintos(ks)
    ensures ContaEntre(u, ks, n) == |NivelEntre(u, ks, n)|
    decreases |ks|
  {
    if ks != [] {
      var j := |ks| - 1;
      var ini := ks[..j];
      assert Distintos(ini) by {
        forall a, b | 0 <= a < b < |ini|
          ensures ini[a] != ini[b]
        {
          assert ini[a] == ks[a] && ini[b] == ks[b];
        }
      }
      ContaEntreConjunto(u, ini, n);
      forall a | 0 <= a < j
        ensures ini[a] != ks[j]
      {
        assert ini[a] == ks[a];
      }
      NivelEntreAnexar(u, ini, ks[j], n);
      assert ks == ini + [ks[j]];
    }
  }

  /** Over a sequence that lists exactly the keys, the level sets are those of the whole map. */
  lemma NivelEntreTodas(u: map<int, Medicao>, ks: seq<int>, n: Nivel)
    requires forall k :: k in ks <==> k in u
    ensures NivelEntre(u, ks, n) == ComNivel(u, n)
  {
    forall k
      ensures k in NivelEntre(u, ks, n) <==> k in ComNivel(u, n)
    {
    }
  }

  /** A duplicate-free sequence has as many elements as the set of its elements. */
  lemma {:induction false} TamanhoDistintos(s: seq<int>)
    requires Distintos(s)
    ensures |set k | k in s| == |s|
    decreases |s|
  {
    if s != [] {
      var n := |s| - 1;
      TamanhoDistintos(s[..n]);
      assert (set k | k in s) == (set k | k in s[..n]) + {s[n]} by {
        assert s == s[..n] + [s[n]];
      }
      forall a | 0 <= a < n
        ensures s[..n][a] != s[n]
      {
        assert s[..n][a] == s[a];
      }
      assert s[n] !in s[..n];
    }
  }

  /** Appending a new value keeps a sequence duplicate-free. */
  lemma AnexarDistinto(s: seq<int>, x: int)
    requires Distintos(s) && x !in s
    ensures Distintos(s + [x])
  {
    forall a, b | 0 <= a < b < |s + [x]|
      ensures (s + [x])[a] != (s + [x])[b]
    {
      if b == |s| {
        assert (s + [x])[a] == s[a];
      } else {
        assert (s + [x])[a] == s[a] && (s + [x])[b] == s[b];
      }
    }
  }

  /**
   * The `forEach` of `processarStatus` that fills `sensoresUnicos`; `ordem`
   * lists its keys once each, in first-insertion order. `Object.values`
   * walks integer-like keys in ascending order instead; the counts that
   * follow do not depend on the order.
   */
  method UnicosPorSensor(medicoes: seq<Medicao>) returns (sensoresUnicos: map<int, Medicao>, ordem: seq<int>)
    ensures sensoresUnicos == Deduplicar(medicoes)
    ensures forall k :: k in ordem <==> k in sensoresUnicos
    ensures Distintos(ordem)
  {
    sensoresUnicos := map[];
    ordem := [];
    var i := 0;
    while i < |medicoes|
      invariant 0 <= i <= |medicoes|
      invariant sensoresUnicos == Deduplicar(medicoes[..i])
      invariant forall k :: k in ordem <==> k in sensoresUnicos
      invariant Distintos(ordem)
    {
      var m := medicoes[i];
      if m.sensorId !in sensoresUnicos || m.timestamp > sensoresUnicos[m.sensorId].timestamp {
        if m.sensorId !in sensoresUnicos {
          AnexarDistinto(ordem, m.sensorId);
          ordem := ordem + [m.sensorId];
        }
        sensoresUnicos := sensoresUnicos[m.sensorId := m];
      }
      assert medicoes[..i + 1][..i] == medicoes[..i];
      i := i + 1;
    }
    assert medicoes[..i] == medicoes;
  }

  /** The four counters of `processarStatus`, over the kept readings in key order. */
  method ContarNiveis(u: map<int, Medicao>, ordem: seq<int>) returns (critico: nat, alto: nat, medio: nat, baixo: nat)
    requires forall k :: k in ordem <==> k in u
    requires Distintos(ordem)
    ensures critico == |ComNivel(u, Critico)| && alto == |ComNivel(u, Alto)|
    ensures medio == |ComNivel(u, Medio)| && baixo == |ComNivel(u, Baixo)|
  {
    critico, alto, medio, baixo := 0, 0, 0, 0;
    var j := 0;
    while j < |ordem|
      invariant 0 <= j <= |ordem|
      invariant critico == ContaEntre(u, ordem[..j], Critico)
      invariant alto == ContaEntre(u, ordem[..j], Alto)
      invariant medio == ContaEntre(u, ordem[..j], Medio)
      invariant baixo == ContaEntre(u, ordem[..j], Baixo)
    {
      assert ordem[j] in ordem;
      var nivel := NivelDe(u[ordem[j]]);
      assert ordem[..j + 1][..j] == ordem[..j];
      if nivel == Critico {
        critico := critico + 1;
      } else if nivel == Alto {
        alto := alto + 1;
      } else if nivel == Medio {
        medio := medio + 1;
      } else {
        baixo := baixo + 1;
      }
      j := j + 1;
    }
    assert ordem[..j] == ordem;
    forall n: Nivel
      ensures ContaEntre(u, ordem, n) == |ComNivel(u, n)|
    {
      ContaEntreConjunto(u, ordem, n);
      NivelEntreTodas(u, ordem, n);
    }
  }

  /**
   * `processarStatus` without the badge update: one reading per sensor, the
   * four counters, and the worst-case rule.
   */
  method Agregar(medicoes: seq<Medicao>) returns (r: Resumo)
    ensures r == Resumir(medicoes)
  {
    var sensoresUnicos, ordem := UnicosPorSensor(medicoes);
    var critico, alto, medio, baixo := ContarNiveis(sensoresUnicos, ordem);
    TamanhoDistintos(ordem);
    assert (set k | k in ordem) == sensoresUnicos.Keys;
    var total := |ordem|;
    r := Resumo(NivelGeral(critico, alto, medio, total), critico, alto, medio, baixo, total);
  }

  // ---------------------------------------------------------------------------
  // The badge object
  // ---------------------------------------------------------------------------

  /** The badge element's class list, icon and text. */
  datatype Badge = Badge(classe: string, icone: string, texto: string)

  /** The badge `atualizarBadge` draws for a level. */
  function BadgeDoNivel(n: Nivel): Badge {
    Badge("status-badge status-" + Texto.Minusculas(Nome(n)), Icone(n), Nome(n))
  }

  /** The badge `mostrarErro` draws. */
  const BadgeOffline := Badge("status-badge status-normal", "\U{26A0}\U{FE0F}", "Offline")

  /**
   * `formatarTempo`: whole seconds since `data` (rounded down); under a minute
   * "agora", under an hour minutes, under a day hours, else a locale date.
   */
  function FormatarTempo(agora: int, data: int): Rotulo {
    var diff := (agora - data) / 1000;
    if diff < 60 then Fixo("agora")
    else if diff < 3600 then Fixo("há " + Texto.IntParaTexto(diff / 60) + "m")
    else if diff < 86400 then Fixo("há " + Texto.IntParaTexto(diff / 3600) + "h")
    else DataLocal(data)
  }

  /**
   * The buckets of `formatarTempo` in milliseconds: under 60 000 ms "agora",
   * under 3 600 000 ms the whole minutes, under 86 400 000 ms the whole hours.
   */
  lemma FormatarTempoFaixas(agora: int, data: int)
    ensures var d := agora - data;
      && (d < 60000 ==> FormatarTempo(agora, data) == Fixo("agora"))
      && (60000 <= d < 3600000 ==> FormatarTempo(agora, data) == Fixo("há " + Texto.IntParaTexto(d / 60000) + "m"))
      && (3600000 <= d < 86400000 ==> FormatarTempo(agora, data) == Fixo("há " + Texto.IntParaTexto(d / 3600000) + "h"))
      && (d >= 86400000 ==> FormatarTempo(agora, data) == DataLocal(data))
  {
    var d := agora - data;
    var s := d / 1000;
    assert d < 60000 <==> s < 60;
    assert d < 3600000 <==> s < 3600;
    assert d < 86400000 <==> s < 86400;
    if s >= 0 {
      assert s / 60 == d / 60000 by {
        assert d == 1000 * s + d % 1000;
        assert d == 60000 * (s / 60) + (1000 * (s % 60) + d % 1000);
      }
      assert s / 3600 == d / 3600000 by {
        assert d == 1000 * s + d % 1000;
        assert d == 3600000 * (s / 3600) + (1000 * (s % 3600) + d % 1000);
      }
    }
  }

  /** The outcome of `fetch` + `response.json()` on `/medicoes/estatisticas`. */
  datatype RespostaEstatisticas =
    | FalhaRede
    | Json(success: bool, ultimasMedicoes: Option<seq<Medicao>>)

  /** The status monitor: the badge element, its tooltip and the time of the last update. */
  class StatusSistema {
    var badge: Badge
    /** The five tooltip counts, once drawn. */
    var tooltip: Option<Resumo>
    /** The "Atualizado ..." tooltip line, once drawn. */
    var tooltipUpdate: Option<string>
    var ultimaAtualizacao: Option<int>

    /** A monitor over a badge element whose markup is `inicial`. */
    constructor (inicial: Badge)
      ensures badge == inicial && tooltip == None && tooltipUpdate == None && ultimaAtualizacao == None
    {
      badge := inicial;
      tooltip := None;
      tooltipUpdate := None;
      ultimaAtualizacao := None;
    }

    /**
     * `buscarStatus` once the request has settled: a thrown error shows
     * Offline, a success processes `ultimasMedicoes` (or []), and a response
     * with `success` false changes nothing.
     */
    method BuscarStatus(resposta: RespostaEstatisticas, agora: int)
      modifies this
      ensures resposta.FalhaRede? ==>
        badge == BadgeOffline && tooltip == old(tooltip) && tooltipUpdate == old(tooltipUpdate)
        && ultimaAtualizacao == old(ultimaAtualizacao)
      ensures resposta.Json? && resposta.success ==>
        var r := Resumir(resposta.ultimasMedicoes.GetOr([]));
        badge == BadgeDoNivel(r.nivel) && tooltip == Some(r)
        && tooltipUpdate == Some("Atualizado agora") && ultimaAtualizacao == Some(agora)
      ensures resposta.Json? && !resposta.success ==>
        badge == old(badge) && tooltip == old(tooltip) && tooltipUpdate == old(tooltipUpdate)
        && ultimaAtualizacao == old(ultimaAtualizacao)
    {
      match resposta {
        case FalhaRede =>
          MostrarErro();
        case Json(success, ultimas) =>
          if success {
            ProcessarStatus(ultimas.GetOr([]), agora);
          }
      }
    }

    /** `processarStatus`: aggregate the batch and redraw the badge. */
    method ProcessarStatus(medicoes: seq<Medicao>, agora: int)
      modifies this
      ensures badge == BadgeDoNivel(Resumir(medicoes).nivel)
      ensures tooltip == Some(Resumir(medicoes))
      ensures tooltipUpdate == Some("Atualizado agora")
      ensures ultimaAtualizacao == Some(agora)
    {
      var r := Agregar(medicoes);
      AtualizarBadge(r, agora);
    }

    /**
     * `atualizarBadge`: the class, icon and text of the level, the tooltip
     * counts, and the update line, which formats the current time against
     * itself and so always reads "agora".
     */
    method AtualizarBadge(r: Resumo, agora: int)
      modifies this
      ensures badge == BadgeDoNivel(r.nivel) && tooltip == Some(r)
      ensures tooltipUpdate == Some("Atualizado agora") && ultimaAtualizacao == Some(agora)
    {
      badge := BadgeDoNivel(r.nivel);
      tooltip := Some(r);
      var quando := FormatarTempo(agora, agora);
      assert quando == Fixo("agora");
      assert "Atualizado " + quando.texto == "Atualizado agora";
      tooltipUpdate := Some("Atualizado " + quando.texto);
      ultimaAtualizacao := Some(agora);
    }

    /** `mostrarErro`: the Offline badge; the tooltip is left as it was. */
    method MostrarErro()
      modifies this
      ensures badge == BadgeOffline
      ensures tooltip == old(tooltip) && tooltipUpdate == old(tooltipUpdate)
      ensures ultimaAtualizacao == old(ultimaAtualizacao)
    {
      badge := BadgeOffline;
    }
  }
}
