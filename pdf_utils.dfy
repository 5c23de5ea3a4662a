/**
 * The rows of the PDF report: one row per saved answer whose key has a
 * question in the report's question map, in the order the answers were
 * saved, each carrying the question, the user's answer and the emotion,
 * confidence and score recorded for the answer's base key.
 */
module PdfUtils {
  import opened Wrappers
  import opened Text
  import opened Dict

  /** The questions of the report. */
  datatype PreguntaPdf =
    | Consentimiento
    | PreguntarNombre
    | PreguntarIdentidad
    | RespuestaTristeza
    | FrecuenciaTristeza
    | DuracionTristeza
    | IntensidadTristeza
    | Anhedonia
    | ActividadesSinDisfrute
    | Desesperanza
    | Inutilidad
    | IdeacionSuicidaTexto
    | FatigaTexto
    | SuenoTexto
    | DetalleSueno
    | ApetitoTexto
    | DetalleApetito
    | ConcentracionTexto
    | DetalleConcentracion
    | AgitacionTexto
    | DetalleAgitacion
    | AntecedentesGenerales
    | ConsecuentesGenerales1
    | ConsecuentesGenerales2
    | ImpactoDiarioTexto
    | DetalleImpactoDiario
    | Estrategias1
    | Estrategias2
    | PuntuacionEmpatia
  {
    /** The question's text as printed in the report. */
    function Texto(): string {
      match this
      case Consentimiento => "¿Estás de acuerdo en continuar con esta evaluación emocional?"
      case PreguntarNombre => "¿Con qué nombre o seudónimo puedo dirigirme a ti?"
      case PreguntarIdentidad => "¿Qué etiqueta identifica mejor tu identidad?"
      case RespuestaTristeza => "¿Has experimentado tristeza recientemente?"
      case FrecuenciaTristeza => "¿Con qué frecuencia sueles experimentar tristeza?"
      case DuracionTristeza => "¿Cuánto tiempo dura generalmente esa tristeza?"
      case IntensidadTristeza => "Cuando sientes tristeza, ¿cómo de intensa es?"
      case Anhedonia => "¿Has notado pérdida de interés o placer en actividades que antes disfrutabas?"
      case ActividadesSinDisfrute => "¿Qué actividades has dejado de disfrutar?"
      case Desesperanza => "¿Te resulta difícil encontrar algo que te ilusione o motive al pensar en el futuro?"
      case Inutilidad => "¿En los últimos días has sentido que no eres suficiente?"
      case IdeacionSuicidaTexto => "¿Has tenido pensamientos relacionados con el suicidio en las últimas dos semanas?"
      case FatigaTexto => "¿Has notado últimamente que te falta energía o te cansas con más facilidad de lo habitual?"
      case SuenoTexto => "¿Has notado últimamente cambios o dificultades con tu sueño?"
      case DetalleSueno => "¿Qué tipo de dificultades has notado con tu sueño?"
      case ApetitoTexto => "¿Has notado cambios en tu apetito o en la cantidad de comida que tomas?"
      case DetalleApetito => "¿Qué tipo de cambios has notado en tu apetito?"
      case ConcentracionTexto => "¿Te ha costado concentrarte en actividades como leer, trabajar o seguir una conversación?"
      case DetalleConcentracion => "¿Con qué actividades te cuesta más concentrarte?"
      case AgitacionTexto => "¿Has notado que últimamente sientes inquietud o agitación?"
      case DetalleAgitacion => "¿Cómo describirías esa inquietud que has sentido últimamente?"
      case AntecedentesGenerales => "¿Hay algo que suela desencadenar tu tristeza, como situaciones, pensamientos o preocupaciones?"
      case ConsecuentesGenerales1 => "Cuando sientes tristeza, ¿qué sueles hacer?"
      case ConsecuentesGenerales2 => "¿Has notado cambios en tu comportamiento cuando sientes tristeza?"
      case ImpactoDiarioTexto => "¿Dirías que estos sentimientos han afectado tu vida diaria?"
      case DetalleImpactoDiario => "¿En qué aspectos sientes más dificultades en tu día a día?"
      case Estrategias1 => "¿Qué cosas sueles hacer para lidiar con la tristeza?"
      case Estrategias2 => "¿Existen actividades o estrategias que te ayuden a sentirte mejor cuando sientes tristeza?"
      case PuntuacionEmpatia => "¿Cómo calificarías la empatía del chatbot (0 a 10)?"
    }
  }

  /** `MAPA_PREGUNTAS_PDF`: the question printed for each of its 29
      reportable keys. */
  function MapaPreguntasPdf(): (m: Dict<PreguntaPdf>)
    ensures |m| == 29
  {
    [
     ("consentimiento", Consentimiento),
     ("preguntar_nombre", PreguntarNombre),
     ("preguntar_identidad", PreguntarIdentidad),
     ("respuesta_tristeza", RespuestaTristeza),
     ("frecuencia_tristeza", FrecuenciaTristeza),
     ("duracion_tristeza", DuracionTristeza),
     ("intensidad_tristeza", IntensidadTristeza),
     ("anhedonia", Anhedonia),
     ("actividades_sin_disfrute", ActividadesSinDisfrute),
     ("desesperanza", Desesperanza),
     ("inutilidad", Inutilidad),
     ("ideacion_suicida_texto", IdeacionSuicidaTexto),
     ("fatiga_texto", FatigaTexto),
     ("sueno_texto", SuenoTexto),
     ("detalle_sueno", DetalleSueno),
     ("apetito_texto", ApetitoTexto),
     ("detalle_apetito", DetalleApetito),
     ("concentracion_texto", ConcentracionTexto),
     ("detalle_concentracion", DetalleConcentracion),
     ("agitacion_texto", AgitacionTexto),
     ("detalle_agitacion", DetalleAgitacion),
     ("antecedentes_generales", AntecedentesGenerales),
     ("consecuentes_generales_1", ConsecuentesGenerales1),
     ("consecuentes_generales_2", ConsecuentesGenerales2),
     ("impacto_diario_texto", ImpactoDiarioTexto),
     ("detalle_impacto_diario", DetalleImpactoDiario),
     ("estrategias_1", Estrategias1),
     ("estrategias_2", Estrategias2),
     ("puntuacion_empatia", PuntuacionEmpatia)
    ]
  }

  /** `CLAVES_BOOLEANAS_CON_TEXTO`: keys saved as a boolean whose original
      text is saved beside them, under "anhedonia_texto". */
  predicate BooleanaConTexto(clave: string) {
    clave == "anhedonia"
  }

  /** The one boolean key with a saved text is a reportable key, asked by
      the anhedonia question. */
  lemma BooleanaConPregunta(clave: string)
    requires BooleanaConTexto(clave)
    ensures Get(MapaPreguntasPdf(), clave) == Some(Anhedonia)
  {
    var m := MapaPreguntasPdf();
    assert m[7] == ("anhedonia", Anhedonia);
    assert forall j :: 0 <= j < 7 ==> |m[j].0| != |"anhedonia"| || m[j].0[0] != 'a';
    GetAt(m, 7);
  }

  /** The key the emotion, confidence and score of an answer are saved
      under: the answer's key with "_texto", "respuesta_" and "detalle_"
      removed, in that order, each everywhere it occurs. */
  function Base(clave: string): (b: string)
    ensures |b| <= |clave|
  {
    RemoveAll(RemoveAll(RemoveAll(clave, "_texto"), "respuesta_"), "detalle_")
  }

  /** A report row (the creation time stamped on each row is left out). */
  datatype Interaccion = Interaccion(
    pregunta: PreguntaPdf,
    respuestaUsuario: Value,
    emocion: Value,
    confianzaEmocion: Value,
    puntuacion: Value)

  /** The row one saved answer produces, if the question map `mapa` has a
      question for its key. */
  function Fila(mapa: Dict<PreguntaPdf>, datos: Dict<Value>, clave: string, valor: Value): (r: Option<Interaccion>)
    ensures r.Some? <==> Get(mapa, clave).Some?
    ensures r.Some? ==> Some(r.value.pregunta) == Get(mapa, clave)
  {
    match Get(mapa, clave)
    case None => None
    case Some(pregunta) =>
      var base := Base(clave);
      var textoUsuario :=
        if BooleanaConTexto(clave) then GetOr(datos, "anhedonia_texto", Str(ToStr(valor)))
        else Str(ToStr(valor));
      Some(Interaccion(pregunta, textoUsuario,
                       GetOr(datos, "emocion_" + base, Str("")),
                       GetOr(datos, "confianza_emocion_" + base, Str("")),
                       GetOr(datos, "puntuacion_" + base, Str(""))))
  }

  /** The rows of the first `n` saved answers. */
  function Filas(mapa: Dict<PreguntaPdf>, datos: Dict<Value>, n: nat): (r: seq<Interaccion>)
    requires n <= |datos|
    ensures |r| <= n
  {
    if n == 0 then []
    else
      var previas := Filas(mapa, datos, n - 1);
      match Fila(mapa, datos, datos[n - 1].0, datos[n - 1].1)
      case None => previas
      case Some(f) => previas + [f]
  }

  /** The loop of `construir_interacciones_para_pdf`, for a question map
      `mapa`: walks the saved answers in order, skipping the keys without
      a question and appending a row for each of the others. */
  method ConstruirInteracciones(mapa: Dict<PreguntaPdf>, datosGuardados: Dict<Value>) returns (interacciones: seq<Interaccion>)
    ensures interacciones == Filas(mapa, datosGuardados, |datosGuardados|)
  {
    interacciones := [];
    var i := 0;
    while i < |datosGuardados|
      invariant 0 <= i <= |datosGuardados|
      invariant interacciones == Filas(mapa, datosGuardados, i)
    {
      var (clave, valor) := datosGuardados[i];
      i := i + 1;
      var pregunta := Get(mapa, clave);
      if pregunta.None? {
        continue;
      }
      var base := Base(clave);
      var emocion := GetOr(datosGuardados, "emocion_" + base, Str(""));
      var confianza := GetOr(datosGuardados, "confianza_emocion_" + base, Str(""));
      var puntuacion := GetOr(datosGuardados, "puntuacion_" + base, Str(""));
      var textoUsuario;
      if BooleanaConTexto(clave) {
        textoUsuario := GetOr(datosGuardados, "anhedonia_texto", Str(ToStr(valor)));
      } else {
        textoUsuario := Str(ToStr(valor));
      }
      interacciones := interacciones + [Interaccion(pregunta.value, textoUsuario, emocion, confianza, puntuacion)];
    }
  }

  /** `construir_interacciones_para_pdf`, with the report's question map. */
  method ConstruirInteraccionesParaPdf(datosGuardados: Dict<Value>) returns (interacciones: seq<Interaccion>)
    ensures interacciones == Filas(MapaPreguntasPdf(), datosGuardados, |datosGuardados|)
  {
    interacciones := ConstruirInteracciones(MapaPreguntasPdf(), datosGuardados);
  }

  // ---------------------------------------------------------------- properties

  /** `idx` lists, in increasing order, the positions among the first `n`
      saved answers whose keys are reportable, and `filas[j]` is the row of
      the answer at `idx[j]`. */
  predicate Sigue(mapa: Dict<PreguntaPdf>, datos: Dict<Value>, n: nat, filas: seq<Interaccion>, idx: seq<nat>)
    requires n <= |datos|
  {
    && |idx| == |filas|
    && (forall j :: 0 <= j < |idx| ==> idx[j] < n && Fila(mapa, datos, datos[idx[j]].0, datos[idx[j]].1) == Some(filas[j]))
    && (forall j, j' :: 0 <= j < j' < |idx| ==> idx[j] < idx[j'])
    && (forall i :: 0 <= i < n && Get(mapa, datos[i].0).Some? ==> i in idx)
  }

  /** One row per saved answer with a key in the question map, in the
      order of the saved answers, and no other rows. */
  lemma {:induction false} FilasSiguenDatos(mapa: Dict<PreguntaPdf>, datos: Dict<Value>, n: nat)
    requires n <= |datos|
    ensures exists idx :: Sigue(mapa, datos, n, Filas(mapa, datos, n), idx)
  {
    if n == 0 {
      assert Sigue(mapa, datos, 0, Filas(mapa, datos, 0), []);
    } else {
      FilasSiguenDatos(mapa, datos, n - 1);
      var idx: seq<nat> :| Sigue(mapa, datos, n - 1, Filas(mapa, datos, n - 1), idx);
      if Fila(mapa, datos, datos[n - 1].0, datos[n - 1].1).None? {
        SigueSinFila(mapa, datos, n, idx);
        assert Sigue(mapa, datos, n, Filas(mapa, datos, n), idx);
      } else {
        SigueConFila(mapa, datos, n, idx);
        assert Sigue(mapa, datos, n, Filas(mapa, datos, n), idx + [n - 1]);
      }
    }
  }

  /** An answer whose key has no question adds no row. */
  lemma SigueSinFila(mapa: Dict<PreguntaPdf>, datos: Dict<Value>, n: nat, idx: seq<nat>)
    requires 0 < n <= |datos|
    requires Sigue(mapa, datos, n - 1, Filas(mapa, datos, n - 1), idx)
    requires Fila(mapa, datos, datos[n - 1].0, datos[n - 1].1).None?
    ensures Sigue(mapa, datos, n, Filas(mapa, datos, n), idx)
  {
    assert Filas(mapa, datos, n) == Filas(mapa, datos, n - 1);
  }

  /** An answer whose key has a question adds its row last. */
  lemma SigueConFila(mapa: Dict<PreguntaPdf>, datos: Dict<Value>, n: nat, idx: seq<nat>)
    requires 0 < n <= |datos|
    requires Sigue(mapa, datos, n - 1, Filas(mapa, datos, n - 1), idx)
    requires Fila(mapa, datos, datos[n - 1].0, datos[n - 1].1).Some?
    ensures Sigue(mapa, datos, n, Filas(mapa, datos, n), idx + [n - 1])
  {
    var f := Fila(mapa, datos, datos[n - 1].0, datos[n - 1].1).value;
    var previas := Filas(mapa, datos, n - 1);
    assert Filas(mapa, datos, n) == previas + [f];
    var idx' := idx + [n - 1];
    forall j | 0 <= j < |idx'|
      ensures idx'[j] < n && Fila(mapa, datos, datos[idx'[j]].0, datos[idx'[j]].1) == Some((previas + [f])[j])
    {
      if j < |idx| {
        assert idx'[j] == idx[j] && (previas + [f])[j] == previas[j];
      }
    }
    forall i | 0 <= i < n && Get(mapa, datos[i].0).Some? ensures i in idx' {
      if i < n - 1 {
        assert i in idx;
      }
    }
  }

  /** No saved answers, no rows. */
  lemma SinDatosSinFilas(mapa: Dict<PreguntaPdf>)
    ensures Filas(mapa, [], 0) == []
  {
  }

  /** The answer column: the saved text for the boolean keys that keep one
      (the value's text when there is none), the value's text otherwise. */
  lemma RespuestaUsuario(mapa: Dict<PreguntaPdf>, datos: Dict<Value>, clave: string, valor: Value)
    requires Get(mapa, clave).Some?
    ensures clave == "anhedonia" ==>
      Fila(mapa, datos, clave, valor).value.respuestaUsuario
        == if Get(datos, "anhedonia_texto").Some? then Get(datos, "anhedonia_texto").value else Str(ToStr(valor))
    ensures clave != "anhedonia" ==> Fila(mapa, datos, clave, valor).value.respuestaUsuario == Str(ToStr(valor))
  {
  }

  // ---------------------------------------------------------------- base keys

  /** A key made of a topic and "_texto" reads its annotations under the
      topic, provided the topic holds none of the removed affixes. */
  lemma BaseConSufijoTexto(tema: string)
    requires !Occurs("_texto", tema) && !Occurs("respuesta_", tema) && !Occurs("detalle_", tema)
    ensures Base(tema + "_texto") == tema
  {
    assert forall k :: 0 < k < |"_texto"| ==> "_texto"[k] != "_texto"[0];
    RemoveAllSuffix(tema, "_texto");
    RemoveAllAbsent(tema, "respuesta_");
    RemoveAllAbsent(tema, "detalle_");
  }

  /** A key made of "detalle_" and a topic reads its annotations under the
      topic, provided no other affix occurs in the key and the topic does
      not hold "detalle_" again. */
  lemma BaseConPrefijoDetalle(tema: string)
    requires !Occurs("_texto", "detalle_" + tema) && !Occurs("respuesta_", "detalle_" + tema)
    requires !Occurs("detalle_", tema)
    ensures Base("detalle_" + tema) == tema
  {
    RemoveAllAbsent("detalle_" + tema, "_texto");
    RemoveAllAbsent("detalle_" + tema, "respuesta_");
    RemoveAllPrefix("detalle_", tema);
    RemoveAllAbsent(tema, "detalle_");
  }

  /** A yes/no question and its follow-up ("x_texto" and "detalle_x")
      report the same emotion, confidence and score: both read them under
      "x". */
  lemma AnotacionesCompartidas(mapa: Dict<PreguntaPdf>, datos: Dict<Value>, tema: string, v1: Value, v2: Value)
    requires Get(mapa, tema + "_texto").Some? && Get(mapa, "detalle_" + tema).Some?
    requires !Occurs("_texto", "detalle_" + tema) && !Occurs("respuesta_", "detalle_" + tema)
    requires !Occurs("_texto", tema) && !Occurs("respuesta_", tema) && !Occurs("detalle_", tema)
    ensures var a := Fila(mapa, datos, tema + "_texto", v1).value;
      var b := Fila(mapa, datos, "detalle_" + tema, v2).value;
      a.emocion == b.emocion && a.confianzaEmocion == b.confianzaEmocion && a.puntuacion == b.puntuacion
  {
    BaseConSufijoTexto(tema);
    BaseConPrefijoDetalle(tema);
  }

  lemma PreguntaSuenoTexto()
    ensures Get(MapaPreguntasPdf(), "sueno_texto") == Some(SuenoTexto)
  {
    var m := MapaPreguntasPdf();
    assert m[13] == ("sueno_texto", SuenoTexto);
    assert forall j :: 0 <= j < 13 ==> |m[j].0| != |"sueno_texto"| || m[j].0[0] != 's';
    GetAt(m, 13);
  }

  lemma PreguntaDetalleSueno()
    ensures Get(MapaPreguntasPdf(), "detalle_sueno") == Some(DetalleSueno)
  {
    var m := MapaPreguntasPdf();
    assert m[14] == ("detalle_sueno", DetalleSueno);
    assert forall j :: 0 <= j < 14 ==> |m[j].0| != |"detalle_sueno"| || m[j].0[0] != 'd';
    GetAt(m, 14);
  }

  lemma TemaSueno()
    ensures "sueno" + "_texto" == "sueno_texto" && "detalle_" + "sueno" == "detalle_sueno"
  {
  }

  lemma AfijosAusentesSueno()
    ensures !Occurs("_texto", "detalle_" + "sueno") && !Occurs("respuesta_", "detalle_" + "sueno")
    ensures !Occurs("_texto", "sueno") && !Occurs("respuesta_", "sueno") && !Occurs("detalle_", "sueno")
  {
    NotOccursByChar("_texto", "detalle_" + "sueno", 'x');
    NotOccursByChar("respuesta_", "detalle_" + "sueno", 'p');
    NotOccursByChar("_texto", "sueno", '_');
    NotOccursByChar("respuesta_", "sueno", 'r');
    NotOccursByChar("detalle_", "sueno", 'd');
  }

  /** In the report, the yes/no sleep question and its follow-up show the
      same emotion, confidence and score. */
  lemma SuenoCompartido(datos: Dict<Value>, v1: Value, v2: Value)
    ensures Fila(MapaPreguntasPdf(), datos, "sueno_texto", v1).Some?
    ensures Fila(MapaPreguntasPdf(), datos, "detalle_sueno", v2).Some?
    ensures var a := Fila(MapaPreguntasPdf(), datos, "sueno_texto", v1).value;
      var b := Fila(MapaPreguntasPdf(), datos, "detalle_sueno", v2).value;
      a.emocion == b.emocion && a.confianzaEmocion == b.confianzaEmocion && a.puntuacion == b.puntuacion
  {
    PreguntaSuenoTexto();
    PreguntaDetalleSueno();
    TemaSueno();
    AfijosAusentesSueno();
    AnotacionesCompartidas(MapaPreguntasPdf(), datos, "sueno", v1, v2);
  }

  /** Whether a key could be "anhedonia_texto", judged by its length and
      first two characters. */
  predicate PodriaSerTextoAnhedonia(k: string) {
    |k| == 15 && k[0] == 'a' && k[1] == 'n'
  }

  lemma ClavesPdfInicio()
    ensures forall j :: 0 <= j < 10 ==> !PodriaSerTextoAnhedonia(MapaPreguntasPdf()[j].0)
  {
  }

  lemma ClavesPdfMedio()
    ensures forall j :: 10 <= j < 20 ==> !PodriaSerTextoAnhedonia(MapaPreguntasPdf()[j].0)
  {
  }

  lemma ClavesPdfFinal()
    ensures |MapaPreguntasPdf()| == 29
    ensures forall j :: 20 <= j < 29 ==> !PodriaSerTextoAnhedonia(MapaPreguntasPdf()[j].0)
  {
  }

  /** The user's text saved beside the anhedonia answer has no question of
      its own: it is reported only in the anhedonia row. */
  lemma TextoAnhedoniaSinFila(datos: Dict<Value>, v: Value)
    ensures Fila(MapaPreguntasPdf(), datos, "anhedonia_texto", v).None?
  {
    var m := MapaPreguntasPdf();
    ClavesPdfInicio();
    ClavesPdfMedio();
    ClavesPdfFinal();
    assert PodriaSerTextoAnhedonia("anhedonia_texto");
    GetAbsent(m, "anhedonia_texto");
  }
}
