/**
 * The master controller of one conversation turn: it reads the session's
 * record (starting a fresh one on the first turn), runs the conversation
 * engine from the phase stored there, and then either stores the announced
 * phase with the updated answers or, when the conversation has ended,
 * deletes the record.
 */
module ConversationController {
  import opened Wrappers
  import opened Dict
  import opened IntentDetector
  import opened DialogManager
  import opened ConversationFlow
  import opened ConversationState

  /** The record a first turn starts from. */
  function RegistroInicial(): Registro {
    [("estado_actual", Valor(Str("presentacion"))), ("datos_guardados", Objeto([]))]
  }

  /** The record the turn works on: the stored one, or the initial record
      when there is none or it is the empty object (which Python reads as
      false). */
  function RegistroVigente(registro: Option<Registro>): (r: Registro)
    ensures r != []
    ensures registro.Some? && registro.value != [] ==> r == registro.value
  {
    if registro.None? || registro.value == [] then RegistroInicial() else registro.value
  }

  /** `estado_usuario.get("estado_actual", "presentacion")`. A stored value
      that is not a string is compared with the phase names as the empty
      text would be: it names no phase. */
  function EstadoActual(registro: Registro): (s: string)
    ensures "estado_actual" !in Keys(registro) ==> s == "presentacion"
    ensures "estado_actual" in Keys(registro) ==> Get(registro, "estado_actual") == Some(Valor(Str(s))) || s == ""
  {
    GetKeys(registro, "estado_actual");
    match Get<Campo>(registro, "estado_actual")
    case None => "presentacion"
    case Some(Valor(Str(s))) => s
    case Some(_) => ""
  }

  /** `estado_usuario.get("datos_guardados", {})`: a stored object is what
      is read; a stored value that is not an object is read as the empty
      object. */
  function DatosGuardados(registro: Registro): (d: Dict<Value>)
    ensures "datos_guardados" !in Keys(registro) ==> d == []
    ensures d != [] ==> Get(registro, "datos_guardados") == Some(Objeto(d))
    ensures Get(registro, "datos_guardados").Some? && Get(registro, "datos_guardados").value.Objeto? ==>
      d == Get(registro, "datos_guardados").value.d
  {
    GetKeys(registro, "datos_guardados");
    match Get<Campo>(registro, "datos_guardados")
    case Some(Objeto(d)) => d
    case _ => []
  }

  /** The record written when the conversation goes on. */
  function Guardado(estado: string, datos: Dict<Value>): Registro {
    [("estado_actual", Valor(Str(estado))), ("datos_guardados", Objeto(datos))]
  }

  /** A written record reads back as the phase and answers written. */
  lemma LeerGuardado(estado: string, datos: Dict<Value>)
    ensures EstadoActual(Guardado(estado, datos)) == estado
    ensures DatosGuardados(Guardado(estado, datos)) == datos
    ensures Guardado(estado, datos) != []
  {
    var g := Guardado(estado, datos);
    assert "estado_actual"[0] != "datos_guardados"[0];
    assert g[1..] == [("datos_guardados", Objeto(datos))];
    assert Get(g, "datos_guardados") == Get(g[1..], "datos_guardados");
    assert Get(g[1..], "datos_guardados") == Some(Objeto(datos));
  }

  /**
   * One turn on the record read from the store: the reply, and what the
   * store keeps afterwards (`None`: the record is deleted). The record is
   * kept whenever the announced phase is non-empty and not "fin".
   */
  function Turno(registro: Option<Registro>, textoUsuario: string): (r: (Respuesta, Option<Registro>))
    ensures var vigente := RegistroVigente(registro);
      var procesado := ProcesarMensaje(textoUsuario, EstadoActual(vigente), DatosGuardados(vigente));
      r.0 == procesado.0
      && (r.1.Some? ==> EstadoActual(r.1.value) == r.0.estado && DatosGuardados(r.1.value) == procesado.1)
  {
    var vigente := RegistroVigente(registro);
    var (respuesta, datosActualizados) := ProcesarMensaje(textoUsuario, EstadoActual(vigente), DatosGuardados(vigente));
    LeerGuardado(respuesta.estado, datosActualizados);
    var nuevoEstado := respuesta.estado;
    if nuevoEstado != "" && nuevoEstado != "fin" then (respuesta, Some(Guardado(nuevoEstado, datosActualizados)))
    else (respuesta, None)
  }

  /** The record is deleted exactly when the reply ends the conversation;
      otherwise the next turn resumes at the phase the reply announced. */
  lemma TurnoGuarda(registro: Option<Registro>, texto: string)
    ensures var (respuesta, guardado) := Turno(registro, texto);
      (guardado.None? <==> respuesta.estado == "fin")
      && (guardado.Some? ==> EstadoActual(guardado.value) == respuesta.estado
                             && guardado.value != [])
  {
    var vigente := RegistroVigente(registro);
    var procesado := ProcesarMensaje(texto, EstadoActual(vigente), DatosGuardados(vigente));
    NombreDeEtapa(DecidirEstado(texto, EstadoActual(vigente), DatosGuardados(vigente)).siguiente);
    LeerGuardado(procesado.0.estado, procesado.1);
  }

  /** Whatever the user writes first, the reply is the presentation and the
      record left behind waits for consent with no answers saved. */
  lemma TurnoInicial(registro: Option<Registro>, texto: string)
    requires registro == None || registro == Some([])
    ensures Turno(registro, texto).0.estado == Consentimiento.Nombre()
    ensures Turno(registro, texto).0.mensaje == ObtenerMensajePresentacion().mensaje
    ensures Turno(registro, texto).1 == Some(Guardado(Consentimiento.Nombre(), []))
  {
    assert EstadoActual(RegistroInicial()) == "presentacion";
    assert DatosGuardados(RegistroInicial()) == [] by {
      assert "estado_actual"[0] != "datos_guardados"[0];
    }
    DecidirFase(texto, Presentacion, []);
  }

  /** A record without `estado_actual` resumes at the presentation. */
  lemma RegistroSinEstado(registro: Registro, texto: string)
    requires registro != [] && Get(registro, "estado_actual") == None
    ensures Turno(Some(registro), texto).0.estado == Consentimiento.Nombre()
  {
    DecidirFase(texto, Presentacion, DatosGuardados(registro));
  }

  /** A stage's name is never empty, and it is "fin" only for the end. */
  lemma NombreDeEtapa(e: Etapa)
    ensures e.Nombre() != ""
    ensures e.Nombre() == "fin" <==> e == Terminada
  {
    if e.EnFase? {
      FaseDeEtapa(e);
      assert FaseDe("fin") == None;
    }
  }

  /** A turn from a written record runs the engine on the phase and the
      answers written there. */
  lemma TurnoDeGuardado(estado: string, datos: Dict<Value>, texto: string)
    ensures var (r, datos') := ProcesarMensaje(texto, estado, datos);
      Turno(Some(Guardado(estado, datos)), texto)
        == if r.estado != "" && r.estado != "fin" then (r, Some(Guardado(r.estado, datos'))) else (r, None)
  {
    LeerGuardado(estado, datos);
  }

  /** From a stored phase, the turn moves as the reference transition table
      says, keeps the record exactly while the conversation goes on, and
      stores the answers the engine handed back. */
  lemma TurnoDesdeFase(f: Fase, datos: Dict<Value>, texto: string)
    ensures var e := Resolver(f, Transicion(f), DetectarIntencion(texto));
      var (respuesta, guardado) := Turno(Some(Guardado(f.Nombre(), datos)), texto);
      respuesta.estado == e.Nombre()
      && guardado == if e == Terminada then None
                     else Some(Guardado(e.Nombre(), ProcesarMensaje(texto, f.Nombre(), datos).1))
  {
    TurnoDeGuardado(f.Nombre(), datos, texto);
    SigueTransiciones(texto, f, datos);
    NombreDeEtapa(Resolver(f, Transicion(f), DetectarIntencion(texto)));
  }

  /** The reply's phase and whether the record survives, from a stored
      phase: the reference table's next stage decides both. */
  lemma EtapaTurno(f: Fase, datos: Dict<Value>, texto: string, e: Etapa)
    requires e == Resolver(f, Transicion(f), DetectarIntencion(texto))
    ensures Turno(Some(Guardado(f.Nombre(), datos)), texto).0.estado == e.Nombre()
    ensures Turno(Some(Guardado(f.Nombre(), datos)), texto).1.None? <==> e == Terminada
  {
    TurnoDesdeFase(f, datos, texto);
  }

  /** The error is sticky: a record announcing "error" is stored again as it
      was, and every later turn answers with the error reply. */
  lemma ErrorPersiste(datos: Dict<Value>, texto: string)
    ensures Turno(Some(Guardado("error", datos)), texto) == (RespuestaError(), Some(Guardado("error", datos)))
  {
    LeerGuardado("error", datos);
    FaseDeEtapa(Fallida);
    EstadoDesconocido(texto, "error", datos);
  }

  /** After the intensity question the conversation always ends and the
      record is deleted; no summary phase follows. */
  lemma FinTrasIntensidad(datos: Dict<Value>, texto: string)
    ensures Turno(Some(Guardado(PreguntarIntensidad.Nombre(), datos)), texto).0.estado == Terminada.Nombre()
    ensures Turno(Some(Guardado(PreguntarIntensidad.Nombre(), datos)), texto).1 == None
  {
    EtapaTurno(PreguntarIntensidad, datos, texto, Terminada);
  }

  /** The phases that ask for an answer advance on any text at all. */
  lemma PreguntaAvanza(f: Fase, datos: Dict<Value>, texto: string)
    requires Transicion(f).Siempre? && Transicion(f).siguiente.EnFase?
    ensures Turno(Some(Guardado(f.Nombre(), datos)), texto).0.estado == Transicion(f).siguiente.Nombre()
    ensures Turno(Some(Guardado(f.Nombre(), datos)), texto).1.Some?
  {
    EtapaTurno(f, datos, texto, Transicion(f).siguiente);
  }

  // ---------------------------------------------------------------- the controller tests

  lemma ConsentimientoAfirmativo()
    ensures Turno(Some(Guardado(Consentimiento.Nombre(), [])), "Sí, " + "quiero continuar").0.estado == PreguntarNombre.Nombre()
  {
    DetectaAfirmativoQuieroContinuar();
    EtapaTurno(Consentimiento, [], "Sí, " + "quiero continuar", EnFase(PreguntarNombre));
  }

  lemma ConsentimientoNegativo()
    ensures Turno(Some(Guardado(Consentimiento.Nombre(), [])), "No deseo " + "continuar").0.estado == Terminada.Nombre()
    ensures Turno(Some(Guardado(Consentimiento.Nombre(), [])), "No deseo " + "continuar").1 == None
  {
    DetectaNegativoNoDeseoContinuar();
    EtapaTurno(Consentimiento, [], "No deseo " + "continuar", Terminada);
  }

  lemma ExploracionAfirmativa(datos: Dict<Value>)
    ensures Turno(Some(Guardado(InicioExploracionTristeza.Nombre(), datos)), "Sí, " + "me he sentido triste").0.estado
      == PreguntarFrecuencia.Nombre()
  {
    DetectaAfirmativoSentidoTriste();
    EtapaTurno(InicioExploracionTristeza, datos, "Sí, " + "me he sentido triste", EnFase(PreguntarFrecuencia));
  }

  lemma ExploracionNegativa(datos: Dict<Value>)
    ensures Turno(Some(Guardado(InicioExploracionTristeza.Nombre(), datos)), "No, " + "no estoy triste").0.estado == Terminada.Nombre()
    ensures Turno(Some(Guardado(InicioExploracionTristeza.Nombre(), datos)), "No, " + "no estoy triste").1 == None
  {
    DetectaNegativoNoEstoyTriste();
    EtapaTurno(InicioExploracionTristeza, datos, "No, " + "no estoy triste", Terminada);
  }

  // ---------------------------------------------------------------- the store

  /** `gestionar_mensaje`: one turn against the store. A missing or empty
      record is first replaced by the initial one; afterwards the record
      is overwritten or deleted as `Turno` says. */
  method GestionarMensaje(estados: SessionStore, sessionId: string, textoUsuario: string) returns (respuesta: Respuesta)
    modifies estados
    ensures var (r, guardado) := Turno(old(estados.ObtenerEstadoUsuario(sessionId)), textoUsuario);
      respuesta == r
      && (!estados.disponible ==> estados.datos == old(estados.datos))
      && (estados.disponible && guardado.Some? ==>
            estados.datos == old(estados.datos)[ClaveEstado(sessionId) := guardado.value])
      && (estados.disponible && guardado.None? ==>
            estados.datos == old(estados.datos) - {ClaveEstado(sessionId)})
  {
    var estadoUsuario := estados.ObtenerEstadoUsuario(sessionId);
    var vigente: Registro;
    if estadoUsuario.None? || estadoUsuario.value == [] {
      vigente := RegistroInicial();
      estados.GuardarEstadoUsuario(sessionId, vigente);
    } else {
      vigente := estadoUsuario.value;
    }
    ghost var tras := estados.datos;
    var (r, datosActualizados) := ProcesarMensaje(textoUsuario, EstadoActual(vigente), DatosGuardados(vigente));
    respuesta := r;
    var nuevoEstado := respuesta.estado;
    if nuevoEstado != "" && nuevoEstado != "fin" {
      estados.GuardarEstadoUsuario(sessionId, Guardado(nuevoEstado, datosActualizados));
      assert estados.disponible ==> estados.datos == old(estados.datos)[ClaveEstado(sessionId) := Guardado(nuevoEstado, datosActualizados)];
    } else {
      estados.BorrarEstadoUsuario(sessionId);
      assert estados.disponible ==> estados.datos == old(estados.datos) - {ClaveEstado(sessionId)};
    }
  }

  /** Two turns of a new session: the first, whatever it says, is met with
      the presentation; an affirmative answer then leads to the name
      question, which is where the stored record waits. */
  method EscenarioControlador(sessionId: string, saludo: string)
    returns (primera: string, segunda: string, estadoGuardado: string)
    ensures primera == Consentimiento.Nombre()
    ensures segunda == PreguntarNombre.Nombre()
    ensures estadoGuardado == PreguntarNombre.Nombre()
  {
    var estados := new SessionStore(true);
    TurnoInicial(None, saludo);
    var r1 := GestionarMensaje(estados, sessionId, saludo);
    primera := r1.estado;
    LeerGuardado(Consentimiento.Nombre(), []);
    ConsentimientoAfirmativo();
    var r2 := GestionarMensaje(estados, sessionId, "Sí, " + "quiero continuar");
    segunda := r2.estado;
    TurnoGuarda(Some(Guardado(Consentimiento.Nombre(), [])), "Sí, " + "quiero continuar");
    var registro := estados.ObtenerEstadoUsuario(sessionId);
    estadoGuardado := EstadoActual(registro.value);
  }
}
