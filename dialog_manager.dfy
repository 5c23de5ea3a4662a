/**
 * The prompt builders: each returns the reply shape
 * {estado, mensaje, modo_entrada, sugerencias} for one phase of the
 * interview. Two of them interpolate the user's name into the message.
 */
module DialogManager {
  import opened Text
  import opened Textos

  /** The `modo_entrada` values: how the front end lets the user answer. */
  datatype ModoEntrada = Mixto | TextoLibre | Sugerencias | Fin

  /** The reply every builder, and the conversation engine, returns. */
  datatype Respuesta = Respuesta(estado: string, mensaje: Mensaje, modoEntrada: ModoEntrada, sugerencias: seq<string>)

  function ObtenerMensajePresentacion(): (r: Respuesta)
    ensures r.estado == "presentacion" && r.modoEntrada == Mixto
    ensures r.sugerencias == ["Sí, estoy de acuerdo", "No, prefiero no continuar"]
    ensures r.mensaje == SaludoInicial
  {
    Respuesta("presentacion", SaludoInicial, Mixto, ["Sí, estoy de acuerdo", "No, prefiero no continuar"])
  }

  function ObtenerMensajeConsentimientoRechazado(): (r: Respuesta)
    ensures r.estado == "fin" && r.modoEntrada == Fin && r.sugerencias == []
    ensures r.mensaje == DespedidaSinConsentimiento
  {
    Respuesta("fin", DespedidaSinConsentimiento, Fin, [])
  }

  function ObtenerMensajeNombre(): (r: Respuesta)
    ensures r.estado == "preguntar_nombre" && r.modoEntrada == TextoLibre && r.sugerencias == []
    ensures r.mensaje == PideNombre
  {
    Respuesta("preguntar_nombre", PideNombre, TextoLibre, [])
  }

  function ObtenerMensajeIdentidad(nombreUsuario: string): (r: Respuesta)
    ensures r.estado == "preguntar_identidad" && r.modoEntrada == Mixto
    ensures r.sugerencias == ["Masculino", "Femenino", "No binario"]
    ensures r.mensaje == PideIdentidad(nombreUsuario)
  {
    Respuesta("preguntar_identidad", PideIdentidad(nombreUsuario), Mixto, ["Masculino", "Femenino", "No binario"])
  }

  function ObtenerMensajeExploracionTristeza(nombreUsuario: string): (r: Respuesta)
    ensures r.estado == "inicio_exploracion_tristeza" && r.modoEntrada == Mixto
    ensures r.sugerencias == ["Sí, me he sentido triste", "No, me he sentido bien", "No estoy seguro"]
    ensures r.mensaje == AbreExploracion(nombreUsuario)
  {
    Respuesta("inicio_exploracion_tristeza", AbreExploracion(nombreUsuario), Mixto,
              ["Sí, me he sentido triste", "No, me he sentido bien", "No estoy seguro"])
  }

  /** The ten answers offered for how often the sadness occurs. */
  function OpcionesFrecuencia(): seq<string> {
    ["Todos los días", "Casi todos los días", "Muy seguido", "A menudo", "Algunas veces por semana",
     "De vez en cuando", "Con poca frecuencia", "Pocas veces", "Casi nunca", "Nunca"]
  }

  /** The ten answers offered for how long the sadness lasts. */
  function OpcionesDuracion(): seq<string> {
    ["Momentos puntuales", "Unas horas", "Más de 6 horas", "Un día o más", "Entre tres y cinco días",
     "Una semana", "Poco más de una semana", "Dos semanas", "Varias semanas", "Un mes o más"]
  }

  /** The four graded answers offered to the suicidal-ideation question. */
  function OpcionesIdeacionSuicida(): seq<string> {
    ["No, en ningún momento",
     "Sí, pero sin intención de hacerme daño",
     "Sí, pensé en hacerme daño, pero no tengo intención",
     "Sí, pensé en hacerme daño y tengo un plan"]
  }

  function ObtenerMensajeFrecuenciaTristeza(): (r: Respuesta)
    ensures r.estado == "frecuencia_tristeza" && r.modoEntrada == Sugerencias
    ensures r.sugerencias == OpcionesFrecuencia()
    ensures r.mensaje == PideFrecuencia
  {
    Respuesta("frecuencia_tristeza", PideFrecuencia, Sugerencias, OpcionesFrecuencia())
  }

  function ObtenerMensajeDuracionTristeza(): (r: Respuesta)
    ensures r.estado == "duracion_tristeza" && r.modoEntrada == Sugerencias
    ensures r.sugerencias == OpcionesDuracion()
    ensures r.mensaje == PideDuracion
  {
    Respuesta("duracion_tristeza", PideDuracion, Sugerencias, OpcionesDuracion())
  }

  function ObtenerMensajeIntensidadTristeza(): (r: Respuesta)
    ensures r.estado == "intensidad_tristeza" && r.modoEntrada == Mixto
    ensures r.sugerencias == ["3", "5", "8", "10"]
    ensures r.mensaje == PideIntensidad
  {
    Respuesta("intensidad_tristeza", PideIntensidad, Mixto, ["3", "5", "8", "10"])
  }

  function ObtenerMensajeAnhedonia(): (r: Respuesta)
    ensures r.estado == "preguntar_anhedonia" && r.modoEntrada == Mixto
    ensures r.sugerencias == ["Sí, he perdido interés", "No, sigo disfrutando igual"]
    ensures r.mensaje == PideAnhedonia
  {
    Respuesta("preguntar_anhedonia", PideAnhedonia, Mixto, ["Sí, he perdido interés", "No, sigo disfrutando igual"])
  }

  function ObtenerMensajeAnhedoniaProfunda(): (r: Respuesta)
    ensures r.estado == "detalle_anhedonia" && r.modoEntrada == Mixto
    ensures r.sugerencias == ["Salir con amigos", "Escuchar música", "Hacer deporte"]
    ensures r.mensaje == PideDetalleAnhedonia
  {
    Respuesta("detalle_anhedonia", PideDetalleAnhedonia, Mixto, ["Salir con amigos", "Escuchar música", "Hacer deporte"])
  }

  function ObtenerMensajeDesesperanza(): (r: Respuesta)
    ensures r.estado == "preguntar_desesperanza" && r.modoEntrada == Mixto
    ensures r.sugerencias == ["Sí, me cuesta ver el futuro con ilusión", "No, tengo metas", "No estoy seguro"]
    ensures r.mensaje == PideDesesperanza
  {
    Respuesta("preguntar_desesperanza", PideDesesperanza, Mixto, ["Sí, me cuesta ver el futuro con ilusión", "No, tengo metas", "No estoy seguro"])
  }

  function ObtenerMensajeInutilidad(): (r: Respuesta)
    ensures r.estado == "preguntar_inutilidad" && r.modoEntrada == Mixto
    ensures r.sugerencias == ["Sí, me ha pasado", "No, no me ha pasado", "No estoy seguro"]
    ensures r.mensaje == PideInutilidad
  {
    Respuesta("preguntar_inutilidad", PideInutilidad, Mixto, ["Sí, me ha pasado", "No, no me ha pasado", "No estoy seguro"])
  }

  function ObtenerDetalleInutilidad(): (r: Respuesta)
    ensures r.estado == "detalle_inutilidad" && r.modoEntrada == Mixto
    ensures r.sugerencias == ["Cuando me equivoco", "Cuando me comparo", "Cuando estoy solo/a"]
    ensures r.mensaje == PideDetalleInutilidad
  {
    Respuesta("detalle_inutilidad", PideDetalleInutilidad, Mixto, ["Cuando me equivoco", "Cuando me comparo", "Cuando estoy solo/a"])
  }

  function ObtenerMensajeIdeacionSuicida(): (r: Respuesta)
    ensures r.estado == "preguntar_ideacion_suicida" && r.modoEntrada == Mixto
    ensures r.sugerencias == OpcionesIdeacionSuicida()
    ensures r.mensaje == PideIdeacionSuicida
  {
    Respuesta("preguntar_ideacion_suicida", PideIdeacionSuicida, Mixto, OpcionesIdeacionSuicida())
  }

  function ObtenerMensajeEsperarSiguientePregunta(): (r: Respuesta)
    ensures r.estado == "esperar_siguiente_pregunta" && r.mensaje == Vacio && r.modoEntrada == TextoLibre
    ensures r.sugerencias == []
  {
    Respuesta("esperar_siguiente_pregunta", Vacio, TextoLibre, [])
  }
}
