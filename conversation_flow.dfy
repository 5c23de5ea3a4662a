/**
 * The conversation engine: given the current phase, the user's text and
 * the answers saved so far, it returns the reply (whose `estado` is the next
 * phase) and the updated answers. Two phases branch on the detected intent;
 * the others always advance, recording the answer.
 */
module ConversationFlow {
  import opened Wrappers
  import opened Text
  import opened Dict
  import opened IntentDetector
  import opened Textos
  import opened DialogManager

  /** The phases the engine recognises; `Nombre` is the text stored as
      `estado_actual`. */
  datatype Fase =
    | Presentacion | Consentimiento | PreguntarNombre | PreguntarIdentidad
    | InicioExploracionTristeza | PreguntarFrecuencia | PreguntarDuracion | PreguntarIntensidad
  {
    function Nombre(): string {
      match this
      case Presentacion => "presentacion"
      case Consentimiento => "consentimiento"
      case PreguntarNombre => "preguntar_nombre"
      case PreguntarIdentidad => "preguntar_identidad"
      case InicioExploracionTristeza => "inicio_exploracion_tristeza"
      case PreguntarFrecuencia => "preguntar_frecuencia"
      case PreguntarDuracion => "preguntar_duracion"
      case PreguntarIntensidad => "preguntar_intensidad"
    }

    /** The phase's position in the interview, as the table lists them. */
    function Orden(): nat {
      match this
      case Presentacion => 0
      case Consentimiento => 1
      case PreguntarNombre => 2
      case PreguntarIdentidad => 3
      case InicioExploracionTristeza => 4
      case PreguntarFrecuencia => 5
      case PreguntarDuracion => 6
      case PreguntarIntensidad => 7
    }
  }

  /** The phase a stored `estado_actual` names, if any: the chain of string
      comparisons the engine dispatches on. */
  function FaseDe(s: string): (f: Option<Fase>)
    ensures f.Some? ==> f.value.Nombre() == s
  {
    if s == "presentacion" then Some(Presentacion)
    else if s == "consentimiento" then Some(Consentimiento)
    else if s == "preguntar_nombre" then Some(PreguntarNombre)
    else if s == "preguntar_identidad" then Some(PreguntarIdentidad)
    else if s == "inicio_exploracion_tristeza" then Some(InicioExploracionTristeza)
    else if s == "preguntar_frecuencia" then Some(PreguntarFrecuencia)
    else if s == "preguntar_duracion" then Some(PreguntarDuracion)
    else if s == "preguntar_intensidad" then Some(PreguntarIntensidad)
    else None
  }

  /** Every phase name is recognised as that phase: names are distinct. */
  lemma FaseDeNombre(f: Fase)
    ensures FaseDe(f.Nombre()) == Some(f)
  {
    match f
    case Presentacion =>
    case Consentimiento =>
    case PreguntarNombre =>
    case PreguntarIdentidad =>
    case InicioExploracionTristeza =>
    case PreguntarFrecuencia =>
      assert f.Nombre()[10] != "preguntar_identidad"[10];
    case PreguntarDuracion =>
      assert f.Nombre()[10] != "preguntar_nombre"[10];
    case PreguntarIntensidad =>
      assert f.Nombre()[10] != "preguntar_frecuencia"[10];
  }

  /** What a reply announces: a phase, the end of the conversation, or the
      error; `Nombre` is the text a reply carries as its `estado`. */
  datatype Etapa = EnFase(fase: Fase) | Terminada | Fallida
  {
    function Nombre(): string {
      match this
      case EnFase(f) => f.Nombre()
      case Terminada => "fin"
      case Fallida => "error"
    }
  }

  /** Reading back an announced stage gives its phase, and nothing for the
      end or the error. */
  lemma FaseDeEtapa(e: Etapa)
    ensures FaseDe(e.Nombre()) == if e.EnFase? then Some(e.fase) else None
  {
    if e.EnFase? {
      FaseDeNombre(e.fase);
    }
  }

  /** An entry of the reference transition table: a fixed next stage, or
      one next stage per intent. */
  datatype Destino = Siempre(siguiente: Etapa) | SegunIntencion(afirmativo: Etapa, negativo: Etapa)

  /** The reference transition table, one entry per phase. Every entry
      leads one phase further along the interview or ends it; only the two
      yes/no phases branch, and their "no" ends the conversation. */
  function Transicion(f: Fase): (d: Destino)
    ensures d.SegunIntencion? <==> f == Consentimiento || f == InicioExploracionTristeza
    ensures d.SegunIntencion? ==>
      d.negativo == Terminada && d.afirmativo.EnFase? && d.afirmativo.fase.Orden() == f.Orden() + 1
    ensures d.Siempre? ==> (d.siguiente == Terminada <==> f == PreguntarIntensidad)
    ensures d.Siempre? && d.siguiente.EnFase? ==> d.siguiente.fase.Orden() == f.Orden() + 1
    ensures d.Siempre? ==> d.siguiente != Fallida
  {
    match f
    case Presentacion => Siempre(EnFase(Consentimiento))
    case Consentimiento => SegunIntencion(EnFase(PreguntarNombre), Terminada)
    case PreguntarNombre => Siempre(EnFase(PreguntarIdentidad))
    case PreguntarIdentidad => Siempre(EnFase(InicioExploracionTristeza))
    case InicioExploracionTristeza => SegunIntencion(EnFase(PreguntarFrecuencia), Terminada)
    case PreguntarFrecuencia => Siempre(EnFase(PreguntarDuracion))
    case PreguntarDuracion => Siempre(EnFase(PreguntarIntensidad))
    case PreguntarIntensidad => Siempre(Terminada)
  }

  /** The reply to a refused consent, written inline by the engine. */
  function RespuestaRechazo(): (r: Respuesta)
    ensures r.estado == "fin" && r.modoEntrada == Fin && r.sugerencias == []
  {
    Respuesta("fin", DespedidaRechazo, Fin, [])
  }

  /** The reply when the user reports no sadness. */
  function RespuestaSinTristeza(): (r: Respuesta)
    ensures r.estado == "fin" && r.modoEntrada == Fin && r.sugerencias == []
  {
    Respuesta("fin", DespedidaSinTristeza, Fin, [])
  }

  /** The reply after the last question. */
  function RespuestaCierre(): (r: Respuesta)
    ensures r.estado == "fin" && r.modoEntrada == Fin && r.sugerencias == []
  {
    Respuesta("fin", DespedidaCierre, Fin, [])
  }

  /** The reply for a phase the engine does not know. */
  function RespuestaError(): (r: Respuesta)
    ensures r.estado == "error" && r.modoEntrada == TextoLibre && r.sugerencias == []
  {
    Respuesta("error", AvisoError, TextoLibre, [])
  }

  /** The saved name, as an f-string renders it (empty when missing). */
  function NombreGuardado(datos: Dict<Value>): string {
    ToStr(GetOr(datos, "nombre_usuario", Str("")))
  }

  // ---------------------------------------------------------------- one step

  /** The reply a branch of the engine builds before it overwrites the
      reply's phase: one of the prompt builders, or a fixed reply. */
  datatype Plantilla =
    | MensajePresentacion | MensajeNombre | MensajeIdentidad(nombre: string)
    | MensajeExploracion(nombre: string) | MensajeFrecuencia | MensajeDuracion
    | MensajeIntensidad | Rechazo | SinTristeza | Cierre | Error
  {
    /** The fixed replies that close the conversation. */
    predicate Final() {
      Rechazo? || SinTristeza? || Cierre?
    }
  }

  /** What a branch decides: the reply to build, the stage to announce,
      and the saved answers to hand back. */
  datatype Decision = Decision(plantilla: Plantilla, siguiente: Etapa, datos: Dict<Value>)

  /** Builds a reply. Only the closing replies use the closing input mode. */
  function Mostrar(p: Plantilla): (r: Respuesta)
    ensures r.modoEntrada == Fin <==> p.Final()
  {
    match p
    case MensajePresentacion => ObtenerMensajePresentacion()
    case MensajeNombre => ObtenerMensajeNombre()
    case MensajeIdentidad(nombre) => ObtenerMensajeIdentidad(nombre)
    case MensajeExploracion(nombre) => ObtenerMensajeExploracionTristeza(nombre)
    case MensajeFrecuencia => ObtenerMensajeFrecuenciaTristeza()
    case MensajeDuracion => ObtenerMensajeDuracionTristeza()
    case MensajeIntensidad => ObtenerMensajeIntensidadTristeza()
    case Rechazo => RespuestaRechazo()
    case SinTristeza => RespuestaSinTristeza()
    case Cierre => RespuestaCierre()
    case Error => RespuestaError()
  }

  /** The branch of the engine taken from a recognised phase;
      `DecisionSigueTabla` proves it moves as the reference table says. */
  function Decidir(textoUsuario: string, f: Fase, datos: Dict<Value>): (d: Decision)
  {
    match f
    case Presentacion =>
      Decision(MensajePresentacion, EnFase(Consentimiento), datos)
    case Consentimiento =>
      var intencion := DetectarIntencion(textoUsuario);
      if intencion == Afirmativo then Decision(MensajeNombre, EnFase(PreguntarNombre), datos)
      else if intencion == Negativo then Decision(Rechazo, Terminada, datos)
      else Decision(MensajePresentacion, EnFase(Consentimiento), datos)
    case PreguntarNombre =>
      var nombreUsuario := Strip(textoUsuario);
      Decision(MensajeIdentidad(nombreUsuario), EnFase(PreguntarIdentidad),
               Put(datos, "nombre_usuario", Str(nombreUsuario)))
    case PreguntarIdentidad =>
      var datos' := Put(datos, "identidad", Str(Lower(Strip(textoUsuario))));
      Decision(MensajeExploracion(NombreGuardado(datos')), EnFase(InicioExploracionTristeza), datos')
    case InicioExploracionTristeza =>
      var intencion := DetectarIntencion(textoUsuario);
      if intencion == Afirmativo then Decision(MensajeFrecuencia, EnFase(PreguntarFrecuencia), datos)
      else if intencion == Negativo then Decision(SinTristeza, Terminada, datos)
      else Decision(MensajeExploracion(NombreGuardado(datos)), EnFase(InicioExploracionTristeza), datos)
    case PreguntarFrecuencia =>
      Decision(MensajeDuracion, EnFase(PreguntarDuracion), Put(datos, "frecuencia_tristeza", Str(textoUsuario)))
    case PreguntarDuracion =>
      Decision(MensajeIntensidad, EnFase(PreguntarIntensidad), Put(datos, "duracion_tristeza", Str(textoUsuario)))
    case PreguntarIntensidad =>
      Decision(Cierre, Terminada, Put(datos, "intensidad_tristeza", Str(textoUsuario)))
  }

  /** The branch taken for any stored phase text; `EstadoDesconocido`
      proves one naming no phase is answered with the error reply. */
  function DecidirEstado(textoUsuario: string, estadoActual: string, datos: Dict<Value>): (d: Decision)
  {
    match FaseDe(estadoActual)
    case None => Decision(Error, Fallida, datos)
    case Some(f) => Decidir(textoUsuario, f, datos)
  }

  /** The reply to a decision: the template built, with its phase
      overwritten by the stage decided. */
  function Responder(d: Decision): (r: Respuesta)
    ensures r.estado == d.siguiente.Nombre()
    ensures r.modoEntrada == Fin <==> d.plantilla.Final()
  {
    Mostrar(d.plantilla).(estado := d.siguiente.Nombre())
  }

  /** `procesar_mensaje` (its unused session id left out): the reply the
      branch builds, with its phase overwritten, and the saved answers. */
  function ProcesarMensaje(textoUsuario: string, estadoActual: string, datos: Dict<Value>): (r: (Respuesta, Dict<Value>))
    ensures var d := DecidirEstado(textoUsuario, estadoActual, datos);
      r.0.estado == d.siguiente.Nombre() && r.1 == d.datos
      && (r.0.modoEntrada == Fin <==> d.plantilla.Final())
  {
    var d := DecidirEstado(textoUsuario, estadoActual, datos);
    (Responder(d), d.datos)
  }

  // ---------------------------------------------------------------- transitions

  /** The next stage the reference table gives for a phase and an intent;
      on an unrecognised intent a branching phase is asked again. */
  function Resolver(f: Fase, d: Destino, intencion: Intencion): Etapa {
    match d
    case Siempre(e) => e
    case SegunIntencion(a, n) =>
      if intencion == Afirmativo then a else if intencion == Negativo then n else EnFase(f)
  }

  /** A stored phase name leads to that phase's branch. */
  lemma DecidirFase(texto: string, f: Fase, datos: Dict<Value>)
    ensures DecidirEstado(texto, f.Nombre(), datos) == Decidir(texto, f, datos)
  {
    FaseDeNombre(f);
  }

  /** Every branch moves as the reference table says, announces a stage
      other than the presentation, and announces the end exactly when it
      builds a closing reply. */
  lemma DecisionSigueTabla(texto: string, f: Fase, datos: Dict<Value>)
    ensures var d := Decidir(texto, f, datos);
      d.siguiente == Resolver(f, Transicion(f), DetectarIntencion(texto))
      && d.siguiente != EnFase(Presentacion)
      && (d.siguiente == Terminada <==> d.plantilla.Final())
  {
  }

  /** Every phase moves exactly as the reference table says. */
  lemma SigueTransiciones(texto: string, f: Fase, datos: Dict<Value>)
    ensures ProcesarMensaje(texto, f.Nombre(), datos).0.estado
      == Resolver(f, Transicion(f), DetectarIntencion(texto)).Nombre()
  {
    DecidirFase(texto, f, datos);
    DecisionSigueTabla(texto, f, datos);
  }

  /** A text naming no phase yields the error reply and keeps the data. */
  lemma EstadoDesconocido(texto: string, estado: string, datos: Dict<Value>)
    requires FaseDe(estado) == None
    ensures DecidirEstado(texto, estado, datos) == Decision(Error, Fallida, datos)
    ensures ProcesarMensaje(texto, estado, datos) == (RespuestaError(), datos)
  {
    assert Responder(Decision(Error, Fallida, datos)) == RespuestaError();
  }

  /** Every reply, from any stored phase text, announces a stage other than
      the presentation, and the conversation ends exactly when the reply's
      input mode is the closing one. */
  lemma RespuestaBienFormada(texto: string, estado: string, datos: Dict<Value>)
    ensures var r := ProcesarMensaje(texto, estado, datos).0;
      exists e: Etapa :: e != EnFase(Presentacion) && r.estado == e.Nombre()
        && (e == Terminada <==> r.modoEntrada == Fin)
  {
    var d := DecidirEstado(texto, estado, datos);
    match FaseDe(estado)
    case None =>
      assert d.siguiente == Fallida;
    case Some(f) =>
      DecisionSigueTabla(texto, f, datos);
    var r := ProcesarMensaje(texto, estado, datos).0;
    assert d.siguiente != EnFase(Presentacion) && r.estado == d.siguiente.Nombre()
      && (d.siguiente == Terminada <==> r.modoEntrada == Fin);
  }

  // ---------------------------------------------------------------- saved answers

  /** The key under which a phase records the user's answer, if it does. */
  function ClaveRespuesta(f: Fase): Option<string> {
    match f
    case PreguntarNombre => Some("nombre_usuario")
    case PreguntarIdentidad => Some("identidad")
    case PreguntarFrecuencia => Some("frecuencia_tristeza")
    case PreguntarDuracion => Some("duracion_tristeza")
    case PreguntarIntensidad => Some("intensidad_tristeza")
    case _ => None
  }

  /** The recorded form of an answer: the name is stripped, the identity
      stripped and lowercased, the three sadness answers kept verbatim. */
  function FormaGuardada(f: Fase, texto: string): string {
    match f
    case PreguntarNombre => Strip(texto)
    case PreguntarIdentidad => Lower(Strip(texto))
    case _ => texto
  }

  /** Each branch writes at most one key, the one of its phase, with the
      answer in its recorded form, and leaves every other saved answer as
      it was. */
  lemma DecisionSoloSuClave(texto: string, f: Fase, datos: Dict<Value>, k: string)
    ensures var datos' := Decidir(texto, f, datos).datos;
      match ClaveRespuesta(f)
      case None => datos' == datos
      case Some(c) => Get(datos', c) == Some(Str(FormaGuardada(f, texto)))
                      && (k != c ==> Get(datos', k) == Get(datos, k))
  {
    match ClaveRespuesta(f)
    case None =>
    case Some(c) =>
      assert Decidir(texto, f, datos).datos == Put(datos, c, Str(FormaGuardada(f, texto)));
      if k != c {
        GetPutOtra(datos, c, Str(FormaGuardada(f, texto)), k);
      }
  }

  /** The same, for the answers the engine hands back from a stored phase. */
  lemma SoloSuClave(texto: string, f: Fase, datos: Dict<Value>, k: string)
    ensures var datos' := ProcesarMensaje(texto, f.Nombre(), datos).1;
      match ClaveRespuesta(f)
      case None => datos' == datos
      case Some(c) => Get(datos', c) == Some(Str(FormaGuardada(f, texto)))
                      && (k != c ==> Get(datos', k) == Get(datos, k))
  {
    DecidirFase(texto, f, datos);
    DecisionSoloSuClave(texto, f, datos, k);
  }

  /** The name stored by the name question is the one the identity
      question's decision greets. */
  lemma NombreRecordado(nombre: string, identidad: string, datos: Dict<Value>)
    ensures var datos1 := DecidirEstado(nombre, "preguntar_nombre", datos).datos;
      DecidirEstado(identidad, "preguntar_identidad", datos1).plantilla == MensajeExploracion(Strip(nombre))
  {
    DecidirFase(nombre, PreguntarNombre, datos);
    var datos1 := Put(datos, "nombre_usuario", Str(Strip(nombre)));
    DecidirFase(identidad, PreguntarIdentidad, datos1);
    GetPutOtra(datos1, "identidad", Str(Lower(Strip(identidad))), "nombre_usuario");
  }

  /** The name given in one step is greeted in the next: after answering
      the name question, the identity answer is met with the opening of
      the exploration addressed to the stripped name (whose text contains
      that name, by `Textos.ExploracionNombra`). */
  lemma NombreEnExploracion(nombre: string, identidad: string, datos: Dict<Value>)
    ensures var datos1 := ProcesarMensaje(nombre, "preguntar_nombre", datos).1;
      ProcesarMensaje(identidad, "preguntar_identidad", datos1).0.mensaje == AbreExploracion(Strip(nombre))
  {
    NombreRecordado(nombre, identidad, datos);
  }

  // ---------------------------------------------------------------- replies

  /** The presentation is shown whatever the user writes, announcing the
      consent phase, and the answers are handed back unchanged. */
  lemma PresentacionMuestraConsentimiento(texto: string, datos: Dict<Value>)
    ensures ProcesarMensaje(texto, Presentacion.Nombre(), datos)
      == (ObtenerMensajePresentacion().(estado := Consentimiento.Nombre()), datos)
  {
    DecidirFase(texto, Presentacion, datos);
  }

  /** An answer of unknown intent to either yes/no question asks the same
      question again, in the same phase, and keeps the answers. */
  lemma SinIntencionRepregunta(texto: string, datos: Dict<Value>)
    requires DetectarIntencion(texto) == Desconocido
    ensures ProcesarMensaje(texto, Consentimiento.Nombre(), datos)
      == (ObtenerMensajePresentacion().(estado := Consentimiento.Nombre()), datos)
    ensures ProcesarMensaje(texto, InicioExploracionTristeza.Nombre(), datos)
      == (ObtenerMensajeExploracionTristeza(NombreGuardado(datos)), datos)
  {
    DecidirFase(texto, Consentimiento, datos);
    DecidirFase(texto, InicioExploracionTristeza, datos);
  }

  /** After the name question the reply is the identity question addressed
      to the stripped name, and that name is recorded. */
  lemma NombreEnIdentidad(texto: string, datos: Dict<Value>)
    ensures ProcesarMensaje(texto, PreguntarNombre.Nombre(), datos)
      == (ObtenerMensajeIdentidad(Strip(texto)).(estado := PreguntarIdentidad.Nombre()),
          Put(datos, "nombre_usuario", Str(Strip(texto))))
  {
    DecidirFase(texto, PreguntarNombre, datos);
  }

  // ---------------------------------------------------------------- reference differences

  /** The builders name the sadness questions "frecuencia_tristeza",
      "duracion_tristeza" and "intensidad_tristeza", which are not phases;
      the flow overwrites them with the phase names of the table. */
  lemma EstadosDeConstructoresNoSonFases()
    ensures FaseDe(ObtenerMensajeFrecuenciaTristeza().estado) == None
    ensures FaseDe(ObtenerMensajeDuracionTristeza().estado) == None
    ensures FaseDe(ObtenerMensajeIntensidadTristeza().estado) == None
  {
  }
}
