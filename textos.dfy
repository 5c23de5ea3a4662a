/**
 * Every text the chatbot sends, named by the builder or the engine branch
 * that sends it. A reply carries the name of its text and `Texto` spells
 * the text out character for character, so reasoning about phases, input
 * modes and suggestions never has to look at the wording.
 */
module Textos {
  import opened Text

  datatype Mensaje =
    | SaludoInicial | DespedidaSinConsentimiento | PideNombre
    | PideIdentidad(nombre: string) | AbreExploracion(nombre: string)
    | PideFrecuencia | PideDuracion | PideIntensidad
    | PideAnhedonia | PideDetalleAnhedonia | PideDesesperanza
    | PideInutilidad | PideDetalleInutilidad | PideIdeacionSuicida
    | Vacio | PideAclaracion
    | DespedidaRechazo | DespedidaSinTristeza | DespedidaCierre | AvisoError

  /** The exact text of each message; the two greetings are f-strings with
      the name in the `{nombre}` slot. */
  function Texto(m: Mensaje): string {
    match m
    case SaludoInicial => TextoSaludoInicial()
    case DespedidaSinConsentimiento => TextoDespedidaSinConsentimiento()
    case PideNombre => TextoPideNombre()
    case PideIdentidad(nombre) => TextoPideIdentidad(nombre)
    case AbreExploracion(nombre) => TextoAbreExploracion(nombre)
    case PideFrecuencia => TextoPideFrecuencia()
    case PideDuracion => TextoPideDuracion()
    case PideIntensidad => TextoPideIntensidad()
    case PideAnhedonia => TextoPideAnhedonia()
    case PideDetalleAnhedonia => TextoPideDetalleAnhedonia()
    case PideDesesperanza => TextoPideDesesperanza()
    case PideInutilidad => TextoPideInutilidad()
    case PideDetalleInutilidad => TextoPideDetalleInutilidad()
    case PideIdeacionSuicida => TextoPideIdeacionSuicida()
    case Vacio => ""
    case PideAclaracion => TextoPideAclaracion()
    case DespedidaRechazo => TextoDespedidaRechazo()
    case DespedidaSinTristeza => TextoDespedidaSinTristeza()
    case DespedidaCierre => TextoDespedidaCierre()
    case AvisoError => TextoAvisoError()
  }

  function TextoSaludoInicial(): string {
    "¡Hola! Soy un asistente virtual diseñado para "
    + "ayudar en la evaluación de tu estado de ánimo.\n\n"
    + "Te haré algunas preguntas para conocer cómo te "
    + "has sentido en los últimos días. "
    + "Esta evaluación no sustituye a una consulta "
    + "profesional y su único propósito es recopilar "
    + "información de manera clara y organizada.\n\n"
    + "Ten en cuenta que soy un asistente virtual o "
    + "chatbot, no un psicólogo humano, por lo que te "
    + "pido por favor que escribas respuestas "
    + "concisas.\n\n"
    + "Antes de comenzar, necesito tu consentimiento. "
    + "Recuerda que, en cualquier caso, tu información "
    + "será tratada con confidencialidad.\n\n"
    + "¿Estás de acuerdo en continuar con la evaluación?"
  }

  function TextoDespedidaSinConsentimiento(): string {
    "Entiendo tu decisión. Gracias por tu tiempo. "
    + "Si en otro momento quieres hablar, estaré "
    + "disponible para escucharte."
  }

  function TextoPideNombre(): string {
    "¿Con qué nombre o seudónimo puedo dirigirme a ti?\n\n"
    + "Puedes escribirme tu nombre real o cualquier "
    + "nombre con el que te sientas cómodo/a, por "
    + "ejemplo: 'Alejandro', 'María', 'Juan'."
  }

  function TextoPideFrecuencia(): string {
    "Gracias por compartirlo. Ahora me gustaría saber "
    + "con qué frecuencia sueles experimentar esa "
    + "tristeza.\n\n"
    + "Selecciona la opción que mejor refleje tu "
    + "experiencia. No te preocupes por ser exacto, solo "
    + "una estimación general."
  }

  function TextoPideDuracion(): string {
    "Gracias por compartirlo. Me gustaría saber cuánto "
    + "tiempo suele durarte esa tristeza cuando "
    + "aparece.\n\n"
    + "Selecciona una opción que refleje lo que sueles "
    + "experimentar."
  }

  function TextoPideIntensidad(): string {
    "Por último, ¿cómo describirías la intensidad de "
    + "esa tristeza cuando aparece?\n\n"
    + "Puedes usar una escala del 1 (muy leve) al 10 "
    + "(muy intensa), o expresarlo de forma aproximada, "
    + "como:\n"
    + "'Creo que un 3', 'Más o menos un 7', 'Entre 8 y 9', etc."
  }

  function TextoPideAnhedonia(): string {
    "A veces, lo que antes disfrutábamos deja de "
    + "parecernos interesante o emocionante.\n\n"
    + "¿Has notado si en los últimos días has perdido el "
    + "interés o el placer en algunas actividades que "
    + "solías disfrutar?\n\n"
    + "Puedes responder, por ejemplo: 'Sí, ya no "
    + "disfruto de algunas cosas' o 'No, sigo "
    + "disfrutando igual'."
  }

  function TextoPideDetalleAnhedonia(): string {
    "Gracias por compartirlo. ¿Podrías decirme qué "
    + "actividades específicas has dejado de disfrutar "
    + "recientemente?\n"
    + "Esto me ayuda a entender mejor en qué áreas has "
    + "notado el cambio."
  }

  function TextoPideDesesperanza(): string {
    "Cuando piensas en el futuro, ¿te resulta difícil "
    + "encontrar algo que te ilusione o motive?\n\n"
    + "Puedes responder con sinceridad, por ejemplo: "
    + "'Sí, últimamente nada me motiva' o 'No, tengo "
    + "cosas que me ilusionan'."
  }

  function TextoPideInutilidad(): string {
    "A veces, cuando estamos tristes, podemos ser muy "
    + "duros con nosotros mismos.\n\n"
    + "¿En los últimos días has sentido que no eres "
    + "suficiente?\n\n"
    + "Puedes responder, por ejemplo: 'Sí, a veces me "
    + "siento así' o 'No, no me ha pasado'."
  }

  function TextoPideDetalleInutilidad(): string {
    "Lamento que hayas tenido esa sensación. Gracias "
    + "por compartirlo.\n\n"
    + "¿En qué situaciones se te viene normalmente este "
    + "pensamiento a la cabeza?"
  }

  function TextoPideIdeacionSuicida(): string {
    "Sé que esta es una pregunta difícil, pero es "
    + "importante poder hablar de ello.\n\n"
    + "En las últimas dos semanas, ¿has tenido "
    + "pensamientos de suicidio?\n"
    + "Por ejemplo, algunas personas piensan que sería "
    + "mejor no estar aquí, que la vida no merece la "
    + "pena, o incluso piensan en hacerse daño.\n\n"
    + "Puedes responder con sinceridad. Estoy aquí para "
    + "escucharte sin juzgar."
  }

  function TextoPideAclaracion(): string {
    "Permíteme explicarlo" + " de otra forma. No te "
    + "preocupes si no tienes una respuesta clara aún, "
    + "puedes tomarte tu tiempo para pensarla o decir lo "
    + "primero que te venga a la mente."
  }

  function TextoDespedidaRechazo(): string {
    "Entiendo tu decisión. Gracias por tu tiempo. "
    + "Si en otro momento quieres hablar, estaré disponible."
  }

  function TextoDespedidaSinTristeza(): string {
    "¡Me alegra saberlo! Parece que no estás "
    + "experimentando tristeza en estos momentos. "
    + "Gracias por tu participación. 😊"
  }

  function TextoDespedidaCierre(): string {
    "¡Gracias por compartir cómo te has sentido! "
    + "Con esta información podremos generar un pequeño "
    + "informe de tu estado emocional."
  }

  function TextoAvisoError(): string {
    "Ha ocurrido un error inesperado. Vamos a "
    + "reiniciar la conversación."
  }

  /** The identity question, an f-string on the user's name. */
  function TextoPideIdentidad(nombre: string): string {
    "Un placer conocerte, " + nombre + TrasNombreIdentidad()
  }

  /** The opening of the exploration, an f-string on the user's name. */
  function TextoAbreExploracion(nombre: string): string {
    "Gracias, " + nombre + TrasNombreExploracion()
  }

  /** What follows the name in the `PideIdentidad` greeting. */
  function TrasNombreIdentidad(): string {
    ".\n"
    + "¿Qué etiqueta identifica mejor tu identidad?\n\n"
    + "Puedes responder libremente, por ejemplo: "
    + "'Masculino', 'Femenino' o 'No binario'."
  }

  /** What follows the name in the `AbreExploracion` greeting. */
  function TrasNombreExploracion(): string {
    ". Ahora voy a hacerte algunas preguntas sobre "
    + "cómo te has sentido últimamente.\n"
    + "No hay respuestas correctas o incorrectas. Lo "
    + "importante es que respondas con sinceridad, según "
    + "tu experiencia.\n\n"
    + "Para empezar, ¿dirías que has sentido tristeza o "
    + "bajones emocionales en los últimos días?\n\n"
    + "Puedes responder, por ejemplo: 'Sí, me he sentido "
    + "muy triste' o 'No, en general me he sentido bien'."
  }

  /** An f-string `{nombre}` slot: the name occurs in the formatted text. */
  lemma NombreInterpolado(antes: string, nombre: string, despues: string)
    ensures Occurs(nombre, antes + nombre + despues)
  {
    assert (antes + nombre + despues)[|antes|..|antes| + |nombre|] == nombre;
    assert OccursAt(nombre, antes + nombre + despues, |antes|);
  }

  /** The identity question greets the user by the name given. */
  lemma IdentidadNombra(nombre: string)
    ensures Occurs(nombre, TextoPideIdentidad(nombre))
  {
    NombreInterpolado("Un placer conocerte, ", nombre, TrasNombreIdentidad());
  }

  /** The opening of the exploration greets the user by the name given. */
  lemma ExploracionNombra(nombre: string)
    ensures Occurs(nombre, TextoAbreExploracion(nombre))
  {
    NombreInterpolado("Gracias, ", nombre, TrasNombreExploracion());
  }

  /** The clarification reply opens by offering to explain differently. */
  lemma AclaracionOfreceExplicar()
    ensures StartsWith("Permíteme explicarlo", TextoPideAclaracion())
  {
    StartsWithConcat("Permíteme explicarlo", TextoPideAclaracion()[20..]);
  }

  /** The engine's own farewell to a refused consent is not the builder's
      (it lacks "para escucharte"). */
  lemma DespedidasDeRechazoDistintas()
    ensures TextoDespedidaRechazo() != TextoDespedidaSinConsentimiento()
  {
    assert |TextoDespedidaRechazo()| != |TextoDespedidaSinConsentimiento()|;
  }
}
