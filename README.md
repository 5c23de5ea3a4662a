# Spanish emotional-screening chatbot: conversation engine, in Dafny

This project models the conversational core of a Spanish chatbot that screens users for sadness:

- the dialogue state machine (`procesar_mensaje`) that moves a user from the presentation and consent, through name and identity, to three questions about sadness;
- the turn controller (`gestionar_mensaje`) that loads a session's record from a key-value store, runs one step and then stores or deletes the record;
- the session-record store (`conversation_state`) and the score store (`score_manager`), each a class over a map;
- the keyword classifiers:
  - intent (`detectar_intencion`);
  - ambiguity (`detectar_ambiguedad`);
  - banned words (`moderator`);
- the prompt builders (`dialog_manager`), the empathetic and clarifying replies (`empathy_utils`) and the yes/no header (`destacar`);
- the text normaliser (`limpiar_texto`);
- the report-row builder (`construir_interacciones_para_pdf`).

Modules follow the source files:

- `Wrappers`, `Text` and `Dict` are the shared vocabulary:
  - `Option`;
  - strings with Python's `lower`, `strip`, `in` and `str.replace`, and `int()` on strings: an optional sign, then decimal digits of any script (Unicode 15.0, as in Python 3.12) with single underscores between them, at most 4300 digits;
  - ordered dictionaries as association lists, because the PDF rows follow the insertion order of the saved answers.
- `Textos` holds every message text. A reply carries the name of its text (`Mensaje`), and `Texto` spells it out.
- One module per core file: `DialogManager`, `IntentDetector`, `EmpathyUtils`, `Moderator`, `ScoreManager`, `Cleaner`, `Destacar`, `ConversationFlow`, `ConversationState`, `ConversationController`, `PdfUtils`.
- `TestCleaner` states the three sentences of the cleaner's tests, each written as the concatenation of its words so that the word-by-word lemmas of `Cleaner` apply.

Design of the model:

- **The engine.** `ConversationFlow` splits `procesar_mensaje` in two.
  - `Decidir` is the branch taken from a recognised phase (`Fase`). It yields a `Decision`: the reply template, the announced stage (`Etapa`: a phase, `fin` or `error`) and the answers handed back.
  - `Responder` builds the reply from the decision, overwriting its `estado` as the source does.
  - The reference table `TRANSICIONES` is `Transicion`. The lemmas prove that every step follows it.
- **The controller.** `ConversationController.Turno` is the value-level turn: the stored record in, the reply and the record to store (or `None` for delete) out. `GestionarMensaje` is the imperative turn against a `SessionStore`, and its postcondition ties the store to `Turno`.
- **The stores.** Each store has a `disponible` flag for "no client could be created". With it false, reads find nothing and writes do nothing, as in the source.

## Model

| member | source | states |
|---|---|---|
| ConversationFlow.Transicion | nlp/core/conversation_flow.py:13-28 | `TRANSICIONES`: only `consentimiento` and `inicio_exploracion_tristeza` branch on the intent, with `negativo` going to `fin` and `afirmativo` to the next phase; every other phase has one successor, the next phase in the table, and only `preguntar_intensidad` goes to `fin`; no entry leads to `error` |
| ConversationFlow.FaseDe | nlp/core/conversation_flow.py:37-136 | a recognised phase text is exactly that phase's name |
| ConversationFlow.FaseDeNombre | nlp/core/conversation_flow.py:37-115 | every phase name dispatches to that phase's branch (the names are distinct) |
| ConversationFlow.FaseDeEtapa | nlp/core/conversation_flow.py:13-28 | the stage a reply announces reads back as its phase; `fin` and `error` name no phase |
| ConversationFlow.RespuestaRechazo | nlp/core/conversation_flow.py:49-58 | the refused-consent reply is terminal: estado `fin`, input mode `fin`, the no-consent farewell, no suggestions |
| ConversationFlow.RespuestaSinTristeza | nlp/core/conversation_flow.py:86-95 | the no-sadness reply is terminal |
| ConversationFlow.RespuestaCierre | nlp/core/conversation_flow.py:115-126 | the reply after the intensity answer is terminal |
| ConversationFlow.RespuestaError | nlp/core/conversation_flow.py:129-136 | the fallback reply has estado `error`, free-text input and no suggestions |
| ConversationFlow.Mostrar | nlp/core/conversation_flow.py:37-136 | a built reply uses the closing input mode exactly when it is one of the three closing replies |
| ConversationFlow.Responder | nlp/core/conversation_flow.py:37-112 | the reply's `estado` is the stage decided, whatever the builder wrote there |
| ConversationFlow.ProcesarMensaje | nlp/core/conversation_flow.py:31-136 | the reply announces the decided stage, the answers returned are the decided ones, and the input mode is `fin` exactly for the closing replies |
| ConversationFlow.DecidirFase | nlp/core/conversation_flow.py:37-126 | a stored phase name runs that phase's branch |
| ConversationFlow.DecisionSigueTabla | nlp/core/conversation_flow.py:13-126 | every branch moves as `TRANSICIONES` says (an unknown intent at a yes/no phase stays put), never back to `presentacion`, and announces `fin` exactly when it builds a closing reply |
| ConversationFlow.SigueTransiciones | nlp/core/conversation_flow.py:13-126 | from every stored phase the reply's estado is the table's next stage for the detected intent |
| ConversationFlow.EstadoDesconocido | nlp/core/conversation_flow.py:128-136 | a text naming no phase gives the error reply and hands the answers back unchanged |
| ConversationFlow.RespuestaBienFormada | nlp/core/conversation_flow.py:31-136 | from any stored text the reply announces some stage other than the presentation, and its input mode is `fin` exactly when that stage is `fin` |
| ConversationFlow.DecisionSoloSuClave | nlp/core/conversation_flow.py:65-126 | each branch writes at most its own key (`nombre_usuario`, `identidad`, the three sadness keys), in its recorded form (stripped; stripped and lowercased; verbatim), and leaves every other answer as it was |
| ConversationFlow.SoloSuClave | nlp/core/conversation_flow.py:65-126 | the same, for the answers `procesar_mensaje` returns from a stored phase name |
| ConversationFlow.NombreRecordado | nlp/core/conversation_flow.py:65-78 | the identity branch greets the name the previous step stored |
| ConversationFlow.NombreEnExploracion | nlp/core/conversation_flow.py:65-78 | after the name step, the identity answer is met with the exploration opening addressed to the stripped name |
| ConversationFlow.PresentacionMuestraConsentimiento | nlp/core/conversation_flow.py:37-41 | from `presentacion` any text gets the presentation reply announcing `consentimiento`, and the answers are unchanged |
| ConversationFlow.SinIntencionRepregunta | nlp/core/conversation_flow.py:43-101 | an answer of unknown intent re-asks the same yes/no question in the same phase and keeps the answers |
| ConversationFlow.NombreEnIdentidad | nlp/core/conversation_flow.py:65-70 | after the name question the reply is the identity question for the stripped name, and that name is stored under `nombre_usuario` |
| ConversationFlow.EstadosDeConstructoresNoSonFases | nlp/core/dialog_manager.py:71-127 | the sadness builders' own `estado` values are not phases, which is why the engine overwrites them |
| ConversationController.EstadoActual | nlp/core/conversation_controller.py:25 | a record with no `estado_actual` is in `presentacion`; otherwise the phase read is the stored text, or the empty name when the stored value is not text |
| ConversationController.DatosGuardados | nlp/core/conversation_controller.py:26 | a record with no `datos_guardados` has no answers; a stored object is exactly the answers read, and any answers read are the stored object |
| ConversationController.Turno | nlp/core/conversation_controller.py:14-47 | the reply is the engine's reply for the phase and answers of the record in force, and a kept record reads back as the reply's phase and the engine's updated answers |
| ConversationController.RegistroVigente | nlp/core/conversation_controller.py:15-23 | the record a turn works on is never empty, and it is the stored one whenever that is non-empty |
| ConversationController.LeerGuardado | nlp/core/conversation_controller.py:25-41 | a record written by a turn reads back the phase and the answers written |
| ConversationController.TurnoGuarda | nlp/core/conversation_controller.py:29-47 | the turn deletes the record exactly when the reply's estado is `fin`; otherwise the non-empty record it keeps resumes at the reply's estado |
| ConversationController.TurnoInicial | nlp/core/conversation_controller.py:17-31 | with no record (or an empty one), any first text is answered with the presentation, announcing `consentimiento`, and an empty-answers record in `consentimiento` is stored |
| ConversationController.RegistroSinEstado | nlp/core/conversation_controller.py:25 | a record without `estado_actual` resumes at the presentation |
| ConversationController.NombreDeEtapa | nlp/core/conversation_controller.py:36 | an announced estado is never empty, and it is `fin` only for the end |
| ConversationController.TurnoDeGuardado | nlp/core/conversation_controller.py:25-44 | a turn from a written record runs the engine on that phase and those answers |
| ConversationController.TurnoDesdeFase | nlp/core/conversation_controller.py:29-44 | from a stored phase the turn replies with the table's next stage and stores it with the engine's answers, or deletes the record at `fin` |
| ConversationController.EtapaTurno | nlp/core/conversation_controller.py:34-44 | the reply's estado and whether the record survives, as given by the table |
| ConversationController.ErrorPersiste | nlp/core/conversation_controller.py:36-41 | a record in `error` is answered with the error reply and stored unchanged, so the error is sticky |
| ConversationController.FinTrasIntensidad | nlp/core/conversation_controller.py:43-44 | after the intensity question the conversation ends and the record is deleted |
| ConversationController.PreguntaAvanza | nlp/core/conversation_controller.py:36-41 | the question phases advance on any text and keep a record |
| ConversationController.ConsentimientoAfirmativo | nlp/tests/test_conversation_controller.py:17-24 | "Sí, quiero continuar" in `consentimiento` leads to `preguntar_nombre` |
| ConversationController.ConsentimientoNegativo | nlp/tests/test_conversation_controller.py:27-32 | "No deseo continuar" in `consentimiento` ends the conversation and deletes the record |
| ConversationController.ExploracionAfirmativa | nlp/tests/test_conversation_controller.py:51-57 | "Sí, me he sentido triste" leads to `preguntar_frecuencia` |
| ConversationController.ExploracionNegativa | nlp/tests/test_conversation_controller.py:60-66 | "No, no estoy triste" ends the conversation and deletes the record |
| ConversationController.GestionarMensaje | nlp/core/conversation_controller.py:5-47 | returns the turn's reply; the store then maps the session to the record the turn keeps, or has no entry for it; other sessions' records are untouched; an unavailable store is unchanged |
| ConversationController.EscenarioControlador | nlp/core/conversation_controller.py:5-47 | in a new session the first turn announces `consentimiento`; an affirmative second turn announces and stores `preguntar_nombre` |
| ConversationState.ClaveEstado | nlp/core/conversation_state.py:35-83 | the store key is `estado_usuario:` followed by the session id |
| ConversationState.ClaveEstadoInyectiva | nlp/core/conversation_state.py:35-83 | different sessions never share a record key |
| ConversationState.ClavesDisjuntas | nlp/core/conversation_state.py:35 | record keys never collide with the score keys of nlp/core/score_manager.py:58 |
| ConversationState.ConEstadoActual | nlp/core/conversation_state.py:65-69 | the updated record has `estado_actual` set to the new phase and every other field unchanged; with no record it is `{estado_actual: nuevo}` |
| ConversationState.ConEstadoActualMismasClaves | nlp/core/conversation_state.py:69 | updating the phase of a record that has one keeps its fields and their order |
| ConversationState.SessionStore.ObtenerEstadoUsuario | nlp/core/conversation_state.py:22-36 | the session's record, or nothing; always nothing without a client |
| ConversationState.SessionStore.GuardarEstadoUsuario | nlp/core/conversation_state.py:39-51 | the session's key now maps to the record, the rest of the store is unchanged, and reading it back gives the record |
| ConversationState.SessionStore.ActualizarEstadoUsuario | nlp/core/conversation_state.py:54-70 | the session's key maps to the old record with only `estado_actual` replaced |
| ConversationState.SessionStore.BorrarEstadoUsuario | nlp/core/conversation_state.py:73-83 | the session's key is removed and a read returns nothing |
| ConversationState.SessionStore.constructor | nlp/core/conversation_state.py:7-17 | a store starts empty, available or not |
| ConversationState.EscenarioEstado | nlp/tests/test_conversation_state.py:17-50 | save then read returns the record; update changes `estado_actual` only; after delete a read returns nothing |
| DialogManager.ObtenerMensajePresentacion | nlp/core/dialog_manager.py:4-17 | estado `presentacion`, mixed input, the greeting, and exactly the two suggestions: one to accept, one to refuse |
| DialogManager.ObtenerMensajeConsentimientoRechazado | nlp/core/dialog_manager.py:20-29 | terminal: estado `fin`, input mode `fin`, the no-consent farewell, no suggestions |
| DialogManager.ObtenerMensajeNombre | nlp/core/dialog_manager.py:32-41 | estado `preguntar_nombre`, free text, the name question, no suggestions |
| DialogManager.ObtenerMensajeIdentidad | nlp/core/dialog_manager.py:44-54 | estado `preguntar_identidad`, the three identity suggestions, and a message interpolating the name |
| DialogManager.ObtenerMensajeExploracionTristeza | nlp/core/dialog_manager.py:57-68 | estado `inicio_exploracion_tristeza`, three suggestions, and a message interpolating the name |
| DialogManager.ObtenerMensajeFrecuenciaTristeza | nlp/core/dialog_manager.py:71-91 | suggestion mode with the ten frequency options |
| DialogManager.ObtenerMensajeDuracionTristeza | nlp/core/dialog_manager.py:94-114 | suggestion mode with the ten duration options |
| DialogManager.ObtenerMensajeIntensidadTristeza | nlp/core/dialog_manager.py:117-127 | mixed input with the suggestions 3, 5, 8 and 10 |
| DialogManager.ObtenerMensajeAnhedonia | nlp/core/dialog_manager.py:130-140 | estado `preguntar_anhedonia`, mixed input, the anhedonia question, and exactly the two options "Sí, he perdido interés" and "No, sigo disfrutando igual" |
| DialogManager.ObtenerMensajeAnhedoniaProfunda | nlp/core/dialog_manager.py:142-151 | estado `detalle_anhedonia`, mixed input, the follow-up question, and exactly the three activities: going out with friends, listening to music, doing sport |
| DialogManager.ObtenerMensajeDesesperanza | nlp/core/dialog_manager.py:153-162 | estado `preguntar_desesperanza`, mixed input, the hopelessness question, and exactly its three options (yes, "No, tengo metas", unsure) |
| DialogManager.ObtenerMensajeInutilidad | nlp/core/dialog_manager.py:164-178 | estado `preguntar_inutilidad`, mixed input, the worthlessness question, and exactly its three options (yes, no, unsure) |
| DialogManager.ObtenerDetalleInutilidad | nlp/core/dialog_manager.py:180-189 | estado `detalle_inutilidad`, mixed input, the follow-up question, and exactly the three situations: making mistakes, comparing oneself, being alone |
| DialogManager.ObtenerMensajeIdeacionSuicida | nlp/core/dialog_manager.py:191-207 | estado `preguntar_ideacion_suicida` with the four graded options |
| DialogManager.ObtenerMensajeEsperarSiguientePregunta | nlp/core/dialog_manager.py:209-215 | estado `esperar_siguiente_pregunta`, empty message, free text, no suggestions |
| Textos.NombreInterpolado | nlp/core/dialog_manager.py:44-68 | an f-string slot puts the name into the text |
| Textos.IdentidadNombra | nlp/core/dialog_manager.py:47-50 | the identity question contains the given name |
| Textos.ExploracionNombra | nlp/core/dialog_manager.py:60-64 | the exploration opening contains the given name |
| Textos.AclaracionOfreceExplicar | nlp/core/empathy_utils.py:20-23 | the clarification text opens with "Permíteme explicarlo" |
| Textos.DespedidasDeRechazoDistintas | nlp/core/conversation_flow.py:50-58 | the engine's refused-consent farewell is not the builder's |
| IntentDetector.DetectarIntencion | nlp/core/intent_detector.py:12-30 | a text shorter than two characters holds no keyword and is `desconocido` |
| IntentDetector.IntencionIgnoraMayusculas | nlp/core/intent_detector.py:20 | a text and its lowercase get the same intent |
| IntentDetector.AfirmativoEnContexto | nlp/core/intent_detector.py:22-24 | an affirmative keyword wins whatever surrounds it, negative keywords included |
| IntentDetector.NegativoEnContexto | nlp/core/intent_detector.py:22-28 | surrounding text cannot turn a negative answer into an unknown one |
| IntentDetector.AfirmativoPorPalabra | nlp/core/intent_detector.py:20-24 | an affirmative keyword occurring in the lowercased text gives `afirmativo` |
| IntentDetector.NegativoPorPalabra | nlp/core/intent_detector.py:20-28 | a negative keyword and no affirmative one gives `negativo` |
| IntentDetector.DesconocidoSinPalabras | nlp/core/intent_detector.py:20-30 | no keyword of either list gives `desconocido` |
| IntentDetector.DetectaAfirmativoClaro | nlp/tests/test_intent_detector.py:4-8 | "Claro que sí, quiero continuar" is affirmative |
| IntentDetector.DetectaNegativoNoDeseo | nlp/tests/test_intent_detector.py:11-15 | "No deseo seguir con la evaluación" is negative |
| IntentDetector.DetectaDesconocidoQuiza | nlp/tests/test_intent_detector.py:18-22 | "Quizá más tarde" is unknown |
| IntentDetector.AfirmativoConSi | nlp/core/intent_detector.py:2-24 | any text after "Sí, ", in any letter case, is affirmative |
| IntentDetector.DetectaAfirmativoQuieroContinuar | nlp/tests/test_conversation_controller.py:22 | "Sí, quiero continuar" is affirmative |
| IntentDetector.DetectaAfirmativoSentidoTriste | nlp/tests/test_conversation_controller.py:55 | "Sí, me he sentido triste" is affirmative |
| IntentDetector.DetectaNegativoNoDeseoContinuar | nlp/tests/test_conversation_controller.py:30 | "No deseo continuar" is negative |
| IntentDetector.DetectaNegativoNoEstoyTriste | nlp/tests/test_conversation_controller.py:64 | "No, no estoy triste" is negative |
| EmpathyUtils.DetectarAmbiguedad | nlp/core/empathy_utils.py:10-13 | a text of fewer than three characters once stripped holds no ambiguous phrase and is not ambiguous |
| EmpathyUtils.FrasesSinEspaciosExternos | nlp/core/empathy_utils.py:4-7 | every ambiguous phrase is non-empty and has no outer whitespace |
| EmpathyUtils.AmbiguedadSinStrip | nlp/core/empathy_utils.py:12-13 | ambiguity holds exactly when some ambiguous phrase occurs in the lowercased text; stripping changes nothing |
| EmpathyUtils.AmbiguedadEnContexto | nlp/core/empathy_utils.py:12-13 | an ambiguous answer stays ambiguous whatever text surrounds it |
| EmpathyUtils.AmbiguaPorFrase | nlp/core/empathy_utils.py:12-13 | a text whose lowercase starts with an ambiguous phrase is ambiguous |
| EmpathyUtils.NoAmbiguaPorMinusculas | nlp/core/empathy_utils.py:12-13 | a lowercased text holding no ambiguous phrase is not ambiguous |
| EmpathyUtils.AmbiguaNoSe | nlp/tests/test_empathy_utils.py:11-15 | "no sé" is ambiguous |
| EmpathyUtils.AmbiguaQuizas | nlp/tests/test_empathy_utils.py:11-15 | "Quizás" is ambiguous |
| EmpathyUtils.AmbiguaNpi | nlp/tests/test_empathy_utils.py:11-15 | "npi" is ambiguous |
| EmpathyUtils.AmbiguaNoEstoySeguro | nlp/tests/test_empathy_utils.py:11-15 | "No estoy seguro" is ambiguous |
| EmpathyUtils.NoAmbiguaTodosLosDias | nlp/tests/test_empathy_utils.py:17-21 | "Todos los días" is not ambiguous |
| EmpathyUtils.NoAmbiguaUnaSemana | nlp/tests/test_empathy_utils.py:17-21 | "Una semana" is not ambiguous |
| EmpathyUtils.NoAmbiguaOcho | nlp/tests/test_empathy_utils.py:17-21 | "8" is not ambiguous |
| EmpathyUtils.NoAmbiguaSi | nlp/tests/test_empathy_utils.py:17-21 | "Sí" is not ambiguous |
| EmpathyUtils.GenerarRespuestaAclaratoria | nlp/core/empathy_utils.py:16-26 | keeps the given estado, free-text input, no suggestions, the clarification text |
| EmpathyUtils.GenerarRespuestaEmpatica | nlp/core/empathy_utils.py:29-37 | the result ends with the base message; with a known type it starts with that type's phrase and is exactly phrase plus base; an unknown type returns the base unchanged; `tristeza` starts with "Lamento que te sientas así" |
| Moderator.ContieneLenguajeInapropiado | nlp/core/moderator.py:26-31 | with no banned words nothing is flagged, and a flagged text is at least as long as some banned word |
| Moderator.CargarPalabrasProhibidas | nlp/core/moderator.py:8-19 | a missing file gives the empty set; every word is non-empty, stripped and lowercase; every non-blank line contributes its stripped lowercase form, and every word comes from such a line, so the set is exactly those forms |
| Moderator.LineaNormalizada | nlp/core/moderator.py:15 | a non-blank line gives a normalised word |
| Moderator.MensajeVacioPermitido | nlp/core/moderator.py:15-31 | loaded lists never flag the empty message |
| Moderator.PalabraListadaDetectada | nlp/core/moderator.py:15-31 | a message containing a listed word, in any case and with any surrounding text, is flagged |
| ScoreManager.FrecuenciaMap | nlp/core/score_manager.py:19-25 | `FRECUENCIA_MAP`: every listed frequency scores 1 to 3 |
| ScoreManager.DuracionMap | nlp/core/score_manager.py:27-33 | `DURACION_MAP`: every listed duration scores 1 to 3 |
| ScoreManager.SumaSinTotal | nlp/core/score_manager.py:72-74 | the `total` written back, summed over the entries other than `total`, lies between 0 and three times the number of entries whenever each of those scores is 1 to 3, whatever the previous `total` was |
| ScoreManager.PuntosIntensidad | nlp/core/score_manager.py:47 | 1 point up to 3, 3 points from 8, 2 in between |
| ScoreManager.PuntosFrecuencia | nlp/core/score_manager.py:19-41 | frequency points lie in 1..3 |
| ScoreManager.PuntosDuracion | nlp/core/score_manager.py:27-43 | duration points lie in 1..3 |
| ScoreManager.PuntosIntensidadTexto | nlp/core/score_manager.py:44-49 | intensity points lie in 1..3, text that is not an integer included |
| ScoreManager.IntensidadArabigoIndica | nlp/core/score_manager.py:44-47 | the Arabic-Indic nine scores 3, as `int()` reads it as 9 |
| ScoreManager.IntensidadDemasiadosDigitos | nlp/core/score_manager.py:44-49 | an answer of more than 4300 digits makes `int()` raise and scores 1 |
| ScoreManager.CalcularPuntuacion | nlp/core/score_manager.py:38-50 | the three known types score 1..3, any other type scores 0 |
| ScoreManager.PuntuacionDeNormal | nlp/core/score_manager.py:39-49 | each known type scores the stripped, lowercased answer by its table or by `int` |
| ScoreManager.NormalSinEspacios | nlp/core/score_manager.py:39 | an answer without outer whitespace is normalised by lowercasing alone |
| ScoreManager.IntToStringNormalizado | nlp/core/score_manager.py:39 | a printed integer is already normalised |
| ScoreManager.IntensidadDeEntero | nlp/core/score_manager.py:44-47 | every integer `str()` can print scores by its value |
| ScoreManager.IntensidadMonotona | nlp/core/score_manager.py:47 | intensity points never fall as the stated integer grows |
| ScoreManager.IntensidadAproximadaPuntuaUno | nlp/core/score_manager.py:44-49 | an answer such as "Creo que un 9", the form the intensity prompt suggests, is not an integer and scores 1 |
| ScoreManager.FrecuenciaOfrecidaNoMonotona | nlp/core/score_manager.py:19-25 | the answer "Muy seguido" offered by the frequency prompt scores 1, below "A menudo" at 2, because it is missing from the table |
| ScoreManager.DuracionOfrecidaPuntuaUno | nlp/core/score_manager.py:27-33 | the answers "Varias semanas" and "Un mes o más" offered by the duration prompt score only 1 |
| ScoreManager.SumaPutTotal | nlp/core/score_manager.py:72-74 | overwriting the total leaves the sum of the other scores alone |
| ScoreManager.SumaPutOtro | nlp/core/score_manager.py:71-74 | setting a score moves the sum by new minus old |
| ScoreManager.ConPuntuacion | nlp/core/score_manager.py:71-74 | after recording, the total equals the sum of the other scores, and the recorded type has its points |
| ScoreManager.ConPuntuacionDistinta | nlp/core/score_manager.py:71-74 | recording keeps the profile a dictionary |
| ScoreManager.ConPuntuacionConservaOtras | nlp/core/score_manager.py:71-74 | recording one type leaves every other score unchanged |
| ScoreManager.TotalTrasAsignar | nlp/core/score_manager.py:71-74 | on a consistent profile the new total is the old total adjusted by the change |
| ScoreManager.TotalDeConPuntuacion | nlp/core/score_manager.py:72-74 | the stored total is the sum over the updated profile |
| ScoreManager.Clasificar | nlp/core/score_manager.py:88-93 | `leve` exactly up to 3, `grave` exactly above 6 |
| ScoreManager.ClasificarMonotona | nlp/core/score_manager.py:88-93 | a higher total never gives a milder evaluation |
| ScoreManager.Resumir | nlp/core/score_manager.py:84-98 | the summary holds the profile and the classification of its total, 0 when missing; an empty profile is `leve` |
| ScoreManager.PrimeraPuntuacion | nlp/core/score_manager.py:68-74 | a first score on an empty profile is also the total |
| ScoreManager.SiguientePuntuacion | nlp/core/score_manager.py:68-74 | a new type's score is added to the total and earlier scores are kept |
| ScoreManager.TresPuntuaciones | nlp/tests/test_score_manager.py:16-25 | frequency, duration and intensity recorded in turn are kept, with their sum as total |
| ScoreManager.PerfilDePrueba | nlp/tests/test_score_manager.py:16-29 | the test's three answers give 3, 1, 3, total 7 and `grave` |
| ScoreManager.PuntosDePrueba | nlp/tests/test_score_manager.py:16-18 | "Todos los días", "Unas horas" and "9" score 3, 1 and 3 |
| ScoreManager.ClavePuntuacion | nlp/core/score_manager.py:58-81 | the score key is `puntuacion_usuario:` followed by the session id |
| ScoreManager.ClavePuntuacionInyectiva | nlp/core/score_manager.py:58-81 | different sessions never share a score key |
| ScoreManager.ScoreStore.constructor | nlp/core/score_manager.py:9-15 | a store starts empty, with consistent profiles |
| ScoreManager.ScoreStore.ObtenerPuntuaciones | nlp/core/score_manager.py:55-60 | the stored profile, or `{}` when none or without a client |
| ScoreManager.ScoreStore.AsignarPuntuacion | nlp/core/score_manager.py:63-76 | the session's profile becomes the old one with the new points and recomputed total; totals stay consistent; no-op without a client |
| ScoreManager.ScoreStore.EliminarPuntuaciones | nlp/core/score_manager.py:79-81 | the profile is removed and a read gives `{}` |
| ScoreManager.ScoreStore.GenerarResumenEvaluacion | nlp/core/score_manager.py:84-98 | the summary of the stored profile |
| ScoreManager.EscenarioPuntuacion | nlp/tests/test_score_manager.py:10-33 | against an available store: total 7, `grave`, and `{}` after deletion |
| Cleaner.RemoveUrls | nlp/core/cleaner.py:11 | URL removal never lengthens the text |
| Cleaner.RemoveUrlsSinUrl | nlp/core/cleaner.py:11 | no `http` followed by a non-space character is left |
| Cleaner.RemoveUrlsNoUrl | nlp/core/cleaner.py:11 | text without URLs is unchanged |
| Cleaner.KeepAllowed | nlp/core/cleaner.py:13 | only admitted characters and whitespace remain, in order; text of only those is unchanged |
| Cleaner.CollapseSpaces | nlp/core/cleaner.py:15 | collapsing never lengthens the text, and the result starts with whitespace exactly when the input does |
| Cleaner.CollapseSpacesSimples | nlp/core/cleaner.py:15 | the result has only single plain spaces |
| Cleaner.CollapseSpacesPermitido | nlp/core/cleaner.py:13-15 | collapsing brings in no character other than the plain space |
| Cleaner.CollapseSpacesNoOp | nlp/core/cleaner.py:15 | text that already has single plain spaces is unchanged |
| Cleaner.LimpiarTexto | nlp/core/cleaner.py:5-16 | the result holds only lowercase letters a-z, á é í ó ú ñ ü, digits and single inner spaces, with no space at either end, and is no longer than the input |
| Cleaner.LimpiarFijo | nlp/core/cleaner.py:10-16 | a clean text without URLs is returned unchanged |
| Cleaner.LimpiarIdempotenteSinUrl | nlp/core/cleaner.py:10-16 | cleaning twice equals cleaning once when the first result has no URL |
| Cleaner.LimpiarIgnoraMayusculas | nlp/core/cleaner.py:10 | letter case does not affect the result |
| Cleaner.LimpiarSoloUrl | nlp/core/cleaner.py:11 | a text that is one URL cleans to nothing |
| Cleaner.LimpiarSinUrl | nlp/core/cleaner.py:10-16 | a lowercase text without URLs cleans to its admitted characters when they are already single-spaced |
| Cleaner.LimpiarNoIdempotente | nlp/core/cleaner.py:11-13 | "h.ttpx" cleans to "httpx", which cleans to nothing, so cleaning is not idempotent |
| Cleaner.RemoveUrlsConcat | nlp/core/cleaner.py:11 | no URL match reaches across whitespace, so URLs are removed separately before and after a whitespace boundary |
| Cleaner.KeepAllowedConcat | nlp/core/cleaner.py:13 | the character filter of a concatenation is the concatenation of the filtered parts |
| Cleaner.ConservadoConcat | nlp/core/cleaner.py:10-13 | lowercasing, URL removal and filtering work separately on the parts of a text split before whitespace |
| Cleaner.CollapseSpacesConcat | nlp/core/cleaner.py:15 | no whitespace run crosses the end of a part that ends with another character, so collapsing works separately on both sides |
| Cleaner.CollapseSpacesPalabra | nlp/core/cleaner.py:15 | a whitespace run followed by a word collapses to one space followed by that word |
| Cleaner.ConservadoUnido | nlp/core/cleaner.py:10-15 | the kept and collapsed forms of two such parts join into those of the whole text |
| Cleaner.LimpiarDeConservado | nlp/core/cleaner.py:10-16 | a text whose kept and collapsed characters have no whitespace at either end cleans to exactly those characters |
| TestCleaner.LimpiezaBasica | nlp/tests/test_cleaner.py:6-12 | "¡Hola! ¿Cómo estás? Esto es un test..." cleans to "hola cómo estás esto es un test" |
| TestCleaner.EliminacionUrls | nlp/tests/test_cleaner.py:15-21 | "Visita http://example.com para más info" cleans to "visita para más info" |
| TestCleaner.EspaciosExtra | nlp/tests/test_cleaner.py:24-30 | "Esto     es   un    texto   con   espacios" cleans to "esto es un texto con espacios" |
| Destacar.DestacarPreguntaBinaria | nlp/utils/destacar.py:1-8 | the result starts with the header and the example line, ends with the text, and has their summed length |
| Destacar.EjemploDeCabeceraEsDesconocido | nlp/utils/destacar.py:7 | the header's own example answer "Si, continuemos." (no accent) is classified `desconocido` by the intent detector |
| PdfUtils.MapaPreguntasPdf | nlp/core/pdf_utils.py:4-34 | `MAPA_PREGUNTAS_PDF` has 29 reportable keys |
| PdfUtils.BooleanaConPregunta | nlp/core/pdf_utils.py:4-39 | the one key of `CLAVES_BOOLEANAS_CON_TEXTO`, `anhedonia`, is a reportable key asked by the anhedonia question |
| PdfUtils.Base | nlp/core/pdf_utils.py:53 | the annotation key is never longer than the answer key |
| PdfUtils.Fila | nlp/core/pdf_utils.py:48-72 | an answer yields a row exactly when its key has a question, and the row's question is the mapped one |
| PdfUtils.Filas | nlp/core/pdf_utils.py:46-72 | no more rows than answers considered |
| PdfUtils.ConstruirInteracciones | nlp/core/pdf_utils.py:46-74 | the loop's list is the rows of all saved answers |
| PdfUtils.ConstruirInteraccionesParaPdf | nlp/core/pdf_utils.py:41-74 | the report's rows, built with `MAPA_PREGUNTAS_PDF` |
| PdfUtils.FilasSiguenDatos | nlp/core/pdf_utils.py:48-65 | there is one row per saved answer whose key has a question, in the answers' order, and none for the others |
| PdfUtils.SinDatosSinFilas | nlp/core/pdf_utils.py:46-74 | no answers, no rows |
| PdfUtils.RespuestaUsuario | nlp/core/pdf_utils.py:60-63 | `anhedonia` shows the saved `anhedonia_texto` when present, else its value as text; other keys show their value as text |
| PdfUtils.BaseConSufijoTexto | nlp/core/pdf_utils.py:53 | a `<tema>_texto` key reads its annotations under `<tema>` |
| PdfUtils.BaseConPrefijoDetalle | nlp/core/pdf_utils.py:53 | a `detalle_<tema>` key reads its annotations under `<tema>` |
| PdfUtils.AnotacionesCompartidas | nlp/core/pdf_utils.py:53-57 | a yes/no question and its follow-up show the same emotion, confidence and score |
| PdfUtils.PreguntaSuenoTexto | nlp/core/pdf_utils.py:18 | `sueno_texto` has the yes/no sleep question |
| PdfUtils.PreguntaDetalleSueno | nlp/core/pdf_utils.py:19 | `detalle_sueno` has the sleep follow-up question |
| PdfUtils.SuenoCompartido | nlp/core/pdf_utils.py:18-57 | in the report, both sleep rows show the annotations saved under `sueno` |
| PdfUtils.TextoAnhedoniaSinFila | nlp/core/pdf_utils.py:4-50 | the saved `anhedonia_texto` adds no row of its own |
| Dict.PutKeys | nlp/core/conversation_state.py:69 | assigning an existing key keeps the key order; a new key goes last |
| Dict.GetPutOtra | nlp/core/score_manager.py:71 | assigning one key leaves the others' values alone |
| Text.ParseIntToString | nlp/core/score_manager.py:46 | `int` reads back every printed integer |
| Text.ParseIntNegative | nlp/core/score_manager.py:46 | `int` reads a minus sign followed by at most 4300 digits as the negative number |
| Text.ParseIntTooLong | nlp/core/score_manager.py:46-49 | past 4300 digits, underscores not counted, `int` raises `ValueError` |
| Text.ParseIntDigit | nlp/core/score_manager.py:46 | `int` of a single decimal digit of any script is that digit's value |
| Text.ParseIntArabicIndic | nlp/core/score_manager.py:46 | `int("٩")`, the Arabic-Indic nine, is 9 |

## Left out

- Store connectivity: the Redis and Mongo clients, the start-up probe and the one-hour expiry (`ex=3600`). Each store is a map, with a flag saying whether a client exists. The JSON encoding is the identity, so the stores keep values.
- Concurrency: turns and score updates run one at a time, so the read-modify-write of `actualizar_estado_usuario` and `asignar_puntuacion` cannot lose updates here.
- The `session_id` parameter of `procesar_mensaje` is unused by the engine and is dropped from `ConversationFlow.ProcesarMensaje`.
- ConversationController.EstadoActual: a stored `estado_actual` that is not a string is read as the empty phase name. Like the source's value, it matches no phase, so the turn takes the error branch (nlp/core/conversation_flow.py:128-136) and stores `error`.
- ConversationController.DatosGuardados: a stored `datos_guardados` that is not an object is read as no answers. The source's presentation, consent and error branches, and the affirmative and negative cases of the exploration branch, hand such a value back unchanged and the controller stores it again, where the model stores `{}`. The branches that write or read an answer raise `TypeError` or `AttributeError` on it, which the model does not capture: name, identity, frequency, duration and intensity, and the exploration branch's unknown-intent case, which reads `nombre_usuario` from it (nlp/core/conversation_flow.py:97). Records the controller writes never hold either kind of value.
- Text.Lower: lowercasing covers ASCII and Latin-1 capitals only. The rest of Unicode case mapping, which Python's `str.lower` applies, is not modelled.
- Text.ParseInt: the digit limit is CPython's default of 4300 since Python 3.11; a limit changed through `PYTHONINTMAXSTRDIGITS` or `sys.set_int_max_str_digits`, and older Pythons without a limit, are not modelled. The decimal-digit table is that of Unicode 15.0 (Python 3.12).
- nlp/core/emotion_model.py, processor.py, security.py, response_generator.py, cache.py and database.py, nlp/utils/extract_name.py, the web and UI layers, and the plotting script are not part of this model. They wrap models, libraries, hashing or I/O.
- PdfUtils.Interaccion: the `timestamp` field (`datetime.now`) is left out. Confidence values are floats in the source, but saved answers here are strings, booleans, integers or null.
- PdfUtils.MapaPreguntasPdf: questions are kept as `PreguntaPdf` identifiers whose `Texto` is the printed question. Rows carry the identifier.
- PdfUtils.ConstruirInteracciones takes the question map as a parameter, so its loop is proved for any map. `ConstruirInteraccionesParaPdf` supplies `MAPA_PREGUNTAS_PDF`.
- The input dictionary is a value here, so "it is only read, never modified" holds by construction.
- Moderator: the word file is read as an optional list of lines (`None` for a missing file). `contiene_lenguaje_inapropiado` takes the word set as a parameter instead of the module-level set loaded at import.
- ScoreManager.ScoreStore.AsignarPuntuacion requires the store invariant `Valid()` (every stored profile has distinct keys). JSON objects always satisfy it.
- Tests expecting behaviour the engine does not have are not modelled: the states `mostrar_resumen`, `preguntar_empatia` and `cierre_final`, an ambiguity re-prompt inside the flow, and scoring triggered by the flow (nlp/tests/test_conversation_controller.py:85-99 and others). The model follows the code, where `preguntar_intensidad` ends the conversation.
