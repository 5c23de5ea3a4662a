/**
 * Emotional scoring: each answer about the sadness (how often, how long,
 * how intense) is turned into 1..3 points, the points are kept per session
 * in the key-value store together with their running total, and the total
 * is classified as mild, moderate or severe.
 */
module ScoreManager {
  import opened Wrappers
  import opened Text
  import opened Dict

  // ---------------------------------------------------------------- scoring

  /** `FRECUENCIA_MAP`: every entry is worth 1..3 points. */
  function FrecuenciaMap(): (m: map<string, int>)
    ensures forall k :: k in m ==> 1 <= m[k] <= 3
  {
    map[
      "todos los días" := 3, "casi todos los días" := 3, "a menudo" := 2,
      "de vez en cuando" := 2, "rara vez" := 1]
  }

  /** `DURACION_MAP`: every entry is worth 1..3 points. */
  function DuracionMap(): (m: map<string, int>)
    ensures forall k :: k in m ==> 1 <= m[k] <= 3
  {
    map[
      "semanas" := 3, "días" := 2, "horas" := 1, "un par de horas" := 1, "unas horas" := 1]
  }

  /** Points for an intensity already read as an integer. */
  function PuntosIntensidad(n: int): (r: int)
    ensures 1 <= r <= 3
    ensures n <= 3 <==> r == 1
    ensures 8 <= n <==> r == 3
  {
    if n <= 3 then 1 else if n <= 7 then 2 else 3
  }

  /** `FRECUENCIA_MAP.get(v, 1)`. */
  function PuntosFrecuencia(v: string): (r: int)
    ensures 1 <= r <= 3
  {
    if v in FrecuenciaMap() then FrecuenciaMap()[v] else 1
  }

  /** `DURACION_MAP.get(v, 1)`. */
  function PuntosDuracion(v: string): (r: int)
    ensures 1 <= r <= 3
  {
    if v in DuracionMap() then DuracionMap()[v] else 1
  }

  /** `int(v)` mapped to points, or 1 when `int` raises `ValueError`. */
  function PuntosIntensidadTexto(v: string): (r: int)
    ensures 1 <= r <= 3
  {
    match ParseInt(v)
    case Some(n) => PuntosIntensidad(n)
    case None => 1
  }

  /** `calcular_puntuacion`: the answer is stripped and lowercased; a
      frequency or duration missing from its table, and an intensity that is
      not an integer, score 1; an unknown answer type scores 0. */
  function CalcularPuntuacion(tipo: string, valor: string): (r: int)
    ensures tipo == "frecuencia" || tipo == "duracion" || tipo == "intensidad" ==> 1 <= r <= 3
    ensures tipo != "frecuencia" && tipo != "duracion" && tipo != "intensidad" ==> r == 0
  {
    var v := Lower(Strip(valor));
    if tipo == "frecuencia" then PuntosFrecuencia(v)
    else if tipo == "duracion" then PuntosDuracion(v)
    else if tipo == "intensidad" then PuntosIntensidadTexto(v)
    else 0
  }

  /** An answer with no surrounding whitespace is normalised by lowercasing alone. */
  lemma NormalSinEspacios(valor: string, v: string)
    requires valor != [] && !IsSpace(valor[0]) && !IsSpace(valor[|valor| - 1])
    requires Lower(valor) == v
    ensures Lower(Strip(valor)) == v
  {
    StripNoOp(valor);
  }

  /** Each known answer type scores the normalised answer. */
  lemma PuntuacionDeNormal(valor: string, v: string)
    requires Lower(Strip(valor)) == v
    ensures CalcularPuntuacion("frecuencia", valor) == PuntosFrecuencia(v)
    ensures CalcularPuntuacion("duracion", valor) == PuntosDuracion(v)
    ensures CalcularPuntuacion("intensidad", valor) == PuntosIntensidadTexto(v)
  {
  }

  /** The text of a printed integer has no whitespace and no capitals. */
  lemma IntToStringNormalizado(n: int)
    ensures Lower(Strip(IntToString(n))) == IntToString(n)
  {
    var s := IntToString(n);
    assert forall i :: 0 <= i < |s| ==> IsDigit(s[i]) || s[i] == '-' by {
      if n < 0 {
        assert forall i :: 1 <= i < |s| ==> s[i] == NatToString(-n)[i - 1];
      }
    }
    assert forall i :: 0 <= i < |s| ==> !IsSpace(s[i]) && !IsUpper(s[i]);
    StripNoOp(s);
  }

  /** A written integer scores by its value: at most 3 is 1 point, 4..7 is
      2 points, 8 and above is 3 points. */
  lemma IntensidadDeEntero(n: int)
    requires |NatToString(if n < 0 then -n else n)| <= MaxStrDigits()
    ensures CalcularPuntuacion("intensidad", IntToString(n)) == PuntosIntensidad(n)
  {
    IntToStringNormalizado(n);
    ParseIntToString(n);
  }

  /** Intensity points never decrease as the stated integer grows. */
  lemma IntensidadMonotona(n: int, m: int)
    requires n <= m
    requires |NatToString(if n < 0 then -n else n)| <= MaxStrDigits()
    requires |NatToString(if m < 0 then -m else m)| <= MaxStrDigits()
    ensures CalcularPuntuacion("intensidad", IntToString(n)) <= CalcularPuntuacion("intensidad", IntToString(m))
  {
    IntensidadDeEntero(n);
    IntensidadDeEntero(m);
  }

  /** `int()` reads the digits of every script: the Arabic-Indic nine scores
      as 9 does. */
  lemma IntensidadArabigoIndica()
    ensures CalcularPuntuacion("intensidad", "\U{0669}") == 3
  {
    MinusculaArabigoIndica();
    NormalSinEspacios("\U{0669}", "\U{0669}");
    PuntuacionDeNormal("\U{0669}", "\U{0669}");
    PuntosArabigoIndica();
  }

  lemma MinusculaArabigoIndica()
    ensures Lower("\U{0669}") == "\U{0669}"
  {
  }

  lemma PuntosArabigoIndica()
    ensures PuntosIntensidadTexto("\U{0669}") == 3
  {
    ParseIntArabicIndic();
  }

  /** An answer of more than `MaxStrDigits()` digits makes `int()` raise, so
      it scores 1 however large the number. */
  lemma IntensidadDemasiadosDigitos(v: string)
    requires |v| > MaxStrDigits()
    requires forall i :: 0 <= i < |v| ==> IsDigit(v[i])
    ensures CalcularPuntuacion("intensidad", v) == 1
  {
    IntensidadDeCifras(v);
    PuntosDemasiadosDigitos(v);
  }

  /** An answer of ASCII digits scores as it is written. */
  lemma IntensidadDeCifras(v: string)
    requires forall i :: 0 <= i < |v| ==> IsDigit(v[i])
    ensures CalcularPuntuacion("intensidad", v) == PuntosIntensidadTexto(v)
  {
    DigitosNormalizados(v);
    PuntuacionDeNormal(v, v);
  }

  /** A string of ASCII digits is already stripped and lowercase. */
  lemma DigitosNormalizados(v: string)
    requires forall i :: 0 <= i < |v| ==> IsDigit(v[i])
    ensures Strip(v) == v && Lower(v) == v
  {
    assert forall i :: 0 <= i < |v| ==> !IsSpace(v[i]) && !IsUpper(v[i]);
    StripNoOp(v);
    LowerIsLower(v);
  }

  lemma PuntosDemasiadosDigitos(v: string)
    requires |v| > MaxStrDigits()
    requires forall i :: 0 <= i < |v| ==> IsDigit(v[i])
    ensures PuntosIntensidadTexto(v) == 1
  {
    DigitCountOfDigits(v);
    ParseIntTooLong(v);
  }

  /** The intensity prompt suggests answers like "Creo que un 3"; they are
      not integers and score 1 whatever number they name. */
  lemma IntensidadAproximadaPuntuaUno()
    ensures CalcularPuntuacion("intensidad", "Creo que un 9") == 1
  {
    MinusculasCreoQue();
    NormalSinEspacios("Creo que un 9", "creo que un 9");
    PuntuacionDeNormal("Creo que un 9", "creo que un 9");
    NoEsEnteroCreoQue();
  }

  lemma MinusculasCreoQue()
    ensures Lower("Creo que un 9") == "creo que un 9"
  {
  }

  lemma NoEsEnteroCreoQue()
    ensures ParseInt("creo que un 9") == None
  {
    assert !IsDigitGroups("creo que un 9") by { assert !IsDecimal("creo que un 9"[0]); }
  }

  /** Of the frequency answers offered, "Muy seguido" scores less than
      "A menudo": it is missing from the table and falls back to 1. */
  lemma FrecuenciaOfrecidaNoMonotona()
    ensures CalcularPuntuacion("frecuencia", "Muy seguido") == 1
    ensures CalcularPuntuacion("frecuencia", "A menudo") == 2
  {
    FrecuenciaMuySeguido();
    FrecuenciaAMenudo();
  }

  lemma FrecuenciaMuySeguido()
    ensures CalcularPuntuacion("frecuencia", "Muy seguido") == 1
  {
    MinusculasFrecuenciaMuySeguido();
    NormalSinEspacios("Muy seguido", "muy seguido");
    PuntuacionDeNormal("Muy seguido", "muy seguido");
    PuntosFrecuenciaMuySeguido();
  }

  lemma MinusculasFrecuenciaMuySeguido()
    ensures Lower("Muy seguido") == "muy seguido"
  {
  }

  lemma PuntosFrecuenciaMuySeguido()
    ensures PuntosFrecuencia("muy seguido") == 1
  {
  }

  lemma FrecuenciaAMenudo()
    ensures CalcularPuntuacion("frecuencia", "A menudo") == 2
  {
    MinusculasFrecuenciaAMenudo();
    NormalSinEspacios("A menudo", "a menudo");
    PuntuacionDeNormal("A menudo", "a menudo");
    PuntosFrecuenciaAMenudo();
  }

  lemma MinusculasFrecuenciaAMenudo()
    ensures Lower("A menudo") == "a menudo"
  {
  }

  lemma PuntosFrecuenciaAMenudo()
    ensures PuntosFrecuencia("a menudo") == 2
  {
  }

  /** Offered duration answers naming weeks or a month are missing from the
      table (which holds "semanas", not "varias semanas"), so they score 1. */
  lemma DuracionOfrecidaPuntuaUno()
    ensures CalcularPuntuacion("duracion", "Varias semanas") == 1
    ensures CalcularPuntuacion("duracion", "Un mes o más") == 1
  {
    DuracionVariasSemanas();
    DuracionUnMes();
  }

  lemma DuracionVariasSemanas()
    ensures CalcularPuntuacion("duracion", "Varias semanas") == 1
  {
    MinusculasDuracionVariasSemanas();
    NormalSinEspacios("Varias semanas", "varias semanas");
    PuntuacionDeNormal("Varias semanas", "varias semanas");
    PuntosDuracionVariasSemanas();
  }

  lemma MinusculasDuracionVariasSemanas()
    ensures Lower("Varias semanas") == "varias semanas"
  {
  }

  lemma PuntosDuracionVariasSemanas()
    ensures PuntosDuracion("varias semanas") == 1
  {
  }

  lemma DuracionUnMes()
    ensures CalcularPuntuacion("duracion", "Un mes o más") == 1
  {
    MinusculasDuracionUnMes();
    NormalSinEspacios("Un mes o más", "un mes o más");
    PuntuacionDeNormal("Un mes o más", "un mes o más");
    PuntosDuracionUnMes();
  }

  lemma MinusculasDuracionUnMes()
    ensures Lower("Un mes o más") == "un mes o más"
  {
  }

  lemma PuntosDuracionUnMes()
    ensures PuntosDuracion("un mes o más") == 1
  {
  }

  // ---------------------------------------------------------------- totals

  /** `sum(v for k, v in p.items() if k != "total")`; whatever the stored
      total, it is bounded by the scores it sums. */
  function SumaSinTotal(p: Dict<int>): (s: int)
    ensures (forall i :: 0 <= i < |p| && p[i].0 != "total" ==> 1 <= p[i].1 <= 3) ==> 0 <= s <= 3 * |p|
  {
    if p == [] then 0
    else
      assert forall i :: 0 <= i < |p[1..]| ==> p[1..][i] == p[i + 1];
      (if p[0].0 != "total" then p[0].1 else 0) + SumaSinTotal(p[1..])
  }

  /** The stored total equals the sum of the other scores. */
  predicate TotalConsistente(p: Dict<int>) {
    Get(p, "total") == Some(SumaSinTotal(p))
  }

  /** Overwriting or adding the total leaves the sum of the other scores alone. */
  lemma {:induction false} SumaPutTotal(p: Dict<int>, x: int)
    ensures SumaSinTotal(Put(p, "total", x)) == SumaSinTotal(p)
  {
    if p != [] && p[0].0 != "total" {
      SumaPutTotal(p[1..], x);
    }
  }

  /** Setting another score moves the sum by the difference between the new
      score and the one it replaces. */
  lemma {:induction false} SumaPutOtro(p: Dict<int>, k: string, v: int)
    requires k != "total" && DistinctKeys(p)
    ensures SumaSinTotal(Put(p, k, v)) == SumaSinTotal(p) - Get(p, k).GetOr(0) + v
  {
    if p == [] {
    } else if p[0].0 == k {
      SumaSinClave(p[1..], k);
    } else {
      SumaPutOtro(p[1..], k, v);
    }
  }

  lemma {:induction false} SumaSinClave(p: Dict<int>, k: string)
    requires DistinctKeys([(k, 0)] + p)
    ensures Get(p, k) == None
  {
    assert ([(k, 0)] + p)[1..] == p;
    GetKeys(p, k);
  }

  /** `puntuaciones[tipo] = puntos` followed by recomputing the total. */
  function ConPuntuacion(p: Dict<int>, tipo: string, puntos: int): (r: Dict<int>)
    ensures TotalConsistente(r)
    ensures tipo != "total" ==> Get(r, tipo) == Some(puntos)
  {
    var q := Put(p, tipo, puntos);
    SumaPutTotal(q, SumaSinTotal(q));
    if tipo != "total" then
      GetPutOtra(q, "total", SumaSinTotal(q), tipo);
      Put(q, "total", SumaSinTotal(q))
    else
      Put(q, "total", SumaSinTotal(q))
  }

  /** Recording a score keeps the profile a dictionary. */
  lemma ConPuntuacionDistinta(p: Dict<int>, tipo: string, puntos: int)
    requires DistinctKeys(p)
    ensures DistinctKeys(ConPuntuacion(p, tipo, puntos))
  {
    var q := Put(p, tipo, puntos);
    PutDistinct(p, tipo, puntos);
    PutDistinct(q, "total", SumaSinTotal(q));
  }

  /** Recording one answer type leaves the other scores as they were. */
  lemma ConPuntuacionConservaOtras(p: Dict<int>, tipo: string, puntos: int, k: string)
    requires k != tipo && k != "total"
    ensures Get(ConPuntuacion(p, tipo, puntos), k) == Get(p, k)
  {
    var q := Put(p, tipo, puntos);
    GetPutOtra(q, "total", SumaSinTotal(q), k);
    GetPutOtra(p, tipo, puntos, k);
  }

  /** With a consistent total, the new total is the old one adjusted by the
      change in this answer type's score. */
  lemma TotalTrasAsignar(p: Dict<int>, tipo: string, puntos: int)
    requires TotalConsistente(p) && DistinctKeys(p) && tipo != "total"
    ensures Get(ConPuntuacion(p, tipo, puntos), "total")
      == Some(Get(p, "total").value - Get(p, tipo).GetOr(0) + puntos)
  {
    var anterior := Get(p, "total").value;
    assert anterior == SumaSinTotal(p);
    SumaPutOtro(p, tipo, puntos);
    TotalDeConPuntuacion(p, tipo, puntos);
  }

  lemma TotalDeConPuntuacion(p: Dict<int>, tipo: string, puntos: int)
    ensures Get(ConPuntuacion(p, tipo, puntos), "total") == Some(SumaSinTotal(Put(p, tipo, puntos)))
  {
    var q := Put(p, tipo, puntos);
    SumaPutTotal(q, SumaSinTotal(q));
  }

  // ---------------------------------------------------------------- summary

  datatype Evaluacion = Leve | Moderado | Grave {
    function Grado(): nat {
      match this
      case Leve => 0
      case Moderado => 1
      case Grave => 2
    }
  }

  /** A total of at most 3 is mild, 4..6 moderate, above 6 severe. */
  function Clasificar(total: int): (e: Evaluacion)
    ensures e == Leve <==> total <= 3
    ensures e == Grave <==> total > 6
  {
    if total <= 3 then Leve else if total <= 6 then Moderado else Grave
  }

  /** A higher total never gives a milder evaluation. */
  lemma ClasificarMonotona(a: int, b: int)
    requires a <= b
    ensures Clasificar(a).Grado() <= Clasificar(b).Grado()
  {
  }

  datatype Resumen = Resumen(perfilEmocional: Dict<int>, evaluacion: Evaluacion)

  /** The stored scores and the classification of their total (0 if none). */
  function Resumir(p: Dict<int>): (r: Resumen)
    ensures r.perfilEmocional == p
    ensures r.evaluacion == Clasificar(GetOr(p, "total", 0))
    ensures p == [] ==> r.evaluacion == Leve
  {
    Resumen(p, Clasificar(GetOr(p, "total", 0)))
  }

  /** Recording a first score on an empty profile. */
  lemma PrimeraPuntuacion(tipo: string, a: int)
    requires tipo != "total"
    ensures var p := ConPuntuacion([], tipo, a);
      DistinctKeys(p) && Get(p, tipo) == Some(a) && Get(p, "total") == Some(a)
  {
    TotalDeConPuntuacion([], tipo, a);
    assert Put([], tipo, a) == [(tipo, a)];
    ConPuntuacionDistinta([], tipo, a);
  }

  /** Recording a score of a new answer type on a consistent profile adds it
      to the total and keeps the earlier scores. */
  lemma SiguientePuntuacion(p: Dict<int>, tipo: string, b: int, otro: string)
    requires TotalConsistente(p) && DistinctKeys(p) && tipo != "total"
    requires Get(p, tipo) == None && otro != tipo && otro != "total"
    ensures var r := ConPuntuacion(p, tipo, b);
      DistinctKeys(r) && Get(r, tipo) == Some(b) && Get(r, otro) == Get(p, otro)
      && Get(r, "total") == Some(Get(p, "total").value + b)
  {
    TotalTrasAsignar(p, tipo, b);
    ConPuntuacionDistinta(p, tipo, b);
    ConPuntuacionConservaOtras(p, tipo, b, otro);
  }

  /** Frequency, duration and intensity recorded in this order on an empty
      profile: each score is kept and the total is their sum. */
  lemma TresPuntuaciones(a: int, b: int, c: int)
    ensures var p := ConPuntuacion(ConPuntuacion(ConPuntuacion([], "frecuencia", a), "duracion", b), "intensidad", c);
      Get(p, "frecuencia") == Some(a) && Get(p, "duracion") == Some(b) && Get(p, "intensidad") == Some(c)
      && Get(p, "total") == Some(a + b + c)
  {
    var p1 := ConPuntuacion([], "frecuencia", a);
    var p2 := ConPuntuacion(p1, "duracion", b);
    PrimeraPuntuacion("frecuencia", a);
    GetKeys(p1, "duracion");
    GetPutOtraVacia(a);
    SiguientePuntuacion(p1, "duracion", b, "frecuencia");
    SinIntensidad(p1, p2, b);
    SiguientePuntuacion(p2, "intensidad", c, "frecuencia");
    ConPuntuacionConservaOtras(p2, "intensidad", c, "duracion");
  }

  lemma GetPutOtraVacia(a: int)
    ensures Get(ConPuntuacion([], "frecuencia", a), "duracion") == None
    ensures Get(ConPuntuacion([], "frecuencia", a), "intensidad") == None
  {
    ConPuntuacionConservaOtras([], "frecuencia", a, "duracion");
    ConPuntuacionConservaOtras([], "frecuencia", a, "intensidad");
  }

  lemma SinIntensidad(p1: Dict<int>, p2: Dict<int>, b: int)
    requires p2 == ConPuntuacion(p1, "duracion", b)
    requires Get(p1, "intensidad") == None
    ensures Get(p2, "intensidad") == None
  {
    ConPuntuacionConservaOtras(p1, "duracion", b, "intensidad");
  }

  /** The three answers of the scoring test, recorded in order on an empty
      profile, give 3 + 1 + 3 = 7 points: a severe evaluation. */
  lemma PerfilDePrueba()
    ensures var p := ConPuntuacion(ConPuntuacion(ConPuntuacion([], "frecuencia", CalcularPuntuacion("frecuencia", "Todos los días")),
                                                 "duracion", CalcularPuntuacion("duracion", "Unas horas")),
                                   "intensidad", CalcularPuntuacion("intensidad", "9"));
      Get(p, "frecuencia") == Some(3) && Get(p, "duracion") == Some(1) && Get(p, "intensidad") == Some(3)
      && Get(p, "total") == Some(7) && Resumir(p).evaluacion == Grave
  {
    PuntosDePrueba();
    TresPuntuaciones(3, 1, 3);
  }

  lemma PuntosDePrueba()
    ensures CalcularPuntuacion("frecuencia", "Todos los días") == 3
    ensures CalcularPuntuacion("duracion", "Unas horas") == 1
    ensures CalcularPuntuacion("intensidad", "9") == 3
  {
    FrecuenciaTodosLosDias();
    DuracionUnasHoras();
    IntensidadDeEntero(9);
    assert IntToString(9) == "9";
  }

  lemma FrecuenciaTodosLosDias()
    ensures CalcularPuntuacion("frecuencia", "Todos los días") == 3
  {
    MinusculasTodosLosDias();
    NormalSinEspacios("Todos los días", "todos los días");
    PuntuacionDeNormal("Todos los días", "todos los días");
    PuntosTodosLosDias();
  }

  lemma MinusculasTodosLosDias()
    ensures Lower("Todos los días") == "todos los días"
  {
  }

  lemma PuntosTodosLosDias()
    ensures PuntosFrecuencia("todos los días") == 3
  {
  }

  lemma DuracionUnasHoras()
    ensures CalcularPuntuacion("duracion", "Unas horas") == 1
  {
    MinusculasUnasHoras();
    NormalSinEspacios("Unas horas", "unas horas");
    PuntuacionDeNormal("Unas horas", "unas horas");
    PuntosUnasHoras();
  }

  lemma MinusculasUnasHoras()
    ensures Lower("Unas horas") == "unas horas"
  {
  }

  lemma PuntosUnasHoras()
    ensures PuntosDuracion("unas horas") == 1
  {
  }

  // ---------------------------------------------------------------- store

  /** The store key of a session's scores. */
  function ClavePuntuacion(sessionId: string): (k: string)
    ensures StartsWith("puntuacion_usuario:", k)
    ensures k[|"puntuacion_usuario:"|..] == sessionId
  {
    StartsWithConcat("puntuacion_usuario:", sessionId);
    "puntuacion_usuario:" + sessionId
  }

  /** Different sessions never share a key. */
  lemma ClavePuntuacionInyectiva(a: string, b: string)
    requires ClavePuntuacion(a) == ClavePuntuacion(b)
    ensures a == b
  {
  }

  /**
   * The scores kept in the key-value store. `disponible` is false when no
   * connection could be made at start-up; every operation then does
   * nothing and reads return the empty profile. Expiry times are not kept.
   */
  class ScoreStore {
    const disponible: bool
    var datos: map<string, Dict<int>>

    /** Every stored profile is a dictionary (distinct keys). */
    predicate Valid()
      reads this
    {
      forall k :: k in datos ==> DistinctKeys(datos[k])
    }

    /** Every stored profile's total matches its other scores. */
    predicate Consistente()
      reads this
    {
      forall k :: k in datos ==> TotalConsistente(datos[k])
    }

    constructor(disponible: bool)
      ensures this.disponible == disponible && datos == map[]
      ensures Valid() && Consistente()
    {
      this.disponible := disponible;
      datos := map[];
    }

    /** `obtener_puntuaciones`. */
    function ObtenerPuntuaciones(sessionId: string): (p: Dict<int>)
      reads this
      ensures !disponible ==> p == []
      ensures disponible && ClavePuntuacion(sessionId) in datos ==> p == datos[ClavePuntuacion(sessionId)]
      ensures ClavePuntuacion(sessionId) !in datos ==> p == []
      ensures Valid() ==> DistinctKeys(p)
    {
      var k := ClavePuntuacion(sessionId);
      if disponible && k in datos then datos[k] else []
    }

    /** `asignar_puntuacion`: record the points for `tipo` and the new total. */
    method AsignarPuntuacion(sessionId: string, tipo: string, valor: string)
      requires Valid()
      modifies this
      ensures Valid()
      ensures old(Consistente()) ==> Consistente()
      ensures !disponible ==> datos == old(datos)
      ensures disponible ==> datos == old(datos)[ClavePuntuacion(sessionId) :=
        ConPuntuacion(old(ObtenerPuntuaciones(sessionId)), tipo, CalcularPuntuacion(tipo, valor))]
    {
      if !disponible {
        return;
      }
      var clave := ClavePuntuacion(sessionId);
      var anteriores := ObtenerPuntuaciones(sessionId);
      var puntos := CalcularPuntuacion(tipo, valor);
      ConPuntuacionDistinta(anteriores, tipo, puntos);
      var puntuaciones := Put(anteriores, tipo, puntos);
      puntuaciones := Put(puntuaciones, "total", SumaSinTotal(puntuaciones));
      assert puntuaciones == ConPuntuacion(anteriores, tipo, puntos);
      datos := datos[clave := puntuaciones];
    }

    /** `eliminar_puntuaciones`. */
    method EliminarPuntuaciones(sessionId: string)
      requires Valid()
      modifies this
      ensures Valid()
      ensures old(Consistente()) ==> Consistente()
      ensures !disponible ==> datos == old(datos)
      ensures disponible ==> datos == old(datos) - {ClavePuntuacion(sessionId)}
      ensures ObtenerPuntuaciones(sessionId) == []
    {
      if disponible {
        datos := datos - {ClavePuntuacion(sessionId)};
      }
    }

    /** `generar_resumen_evaluacion`. */
    function GenerarResumenEvaluacion(sessionId: string): (r: Resumen)
      reads this
      ensures r == Resumir(ObtenerPuntuaciones(sessionId))
    {
      Resumir(ObtenerPuntuaciones(sessionId))
    }
  }

  /** The scoring test run against an available store: the three answers
      give the profile 3 / 1 / 3 with total 7 and a severe evaluation, and
      after deletion the profile is empty. */
  method EscenarioPuntuacion(sessionId: string) returns (total: Option<int>, evaluacion: Evaluacion, vacioTrasBorrar: bool)
    ensures total == Some(7) && evaluacion == Grave && vacioTrasBorrar
  {
    var store := new ScoreStore(true);
    store.AsignarPuntuacion(sessionId, "frecuencia", "Todos los días");
    store.AsignarPuntuacion(sessionId, "duracion", "Unas horas");
    store.AsignarPuntuacion(sessionId, "intensidad", "9");
    PerfilDePrueba();
    total := Get(store.ObtenerPuntuaciones(sessionId), "total");
    evaluacion := store.GenerarResumenEvaluacion(sessionId).evaluacion;
    store.EliminarPuntuaciones(sessionId);
    vacioTrasBorrar := store.ObtenerPuntuaciones(sessionId) == [];
  }
}
