/**
 * Empathy helpers: detection of ambiguous answers ("no sé", "quizás", ...),
 * the clarification reply that keeps the conversation in its state, and
 * the empathetic phrase put in front of a message.
 */
module EmpathyUtils {
  import opened Text
  import opened Textos
  import opened DialogManager

  /** Phrases that mark an answer as ambiguous. */
  function RespuestasAmbiguas(): seq<string> {
    ["no sé", "no lo sé", "no estoy seguro", "quizás", "tal vez",
     "puede ser", "no entiendo", "no sé qué decir", "npi", "ni idea"]
  }

  /** The text, stripped and lowercased, contains an ambiguous phrase. The
      shortest phrase, "npi", has three letters, so a shorter answer is
      never ambiguous. */
  predicate DetectarAmbiguedad(texto: string)
    ensures |Strip(texto)| < 3 ==> !DetectarAmbiguedad(texto)
  {
    FrasesDeTresLetrasAlMenos();
    AnyOccurs(RespuestasAmbiguas(), Lower(Strip(texto)))
  }

  lemma FrasesDeTresLetrasAlMenos()
    ensures forall k :: 0 <= k < |RespuestasAmbiguas()| ==> |RespuestasAmbiguas()[k]| >= 3
  {
  }

  /** Every ambiguous phrase is non-empty and has no space at either end. */
  lemma FrasesSinEspaciosExternos()
    ensures forall k :: 0 <= k < |RespuestasAmbiguas()| ==>
      RespuestasAmbiguas()[k] != [] && !IsSpace(RespuestasAmbiguas()[k][0])
      && !IsSpace(RespuestasAmbiguas()[k][|RespuestasAmbiguas()[k]| - 1])
  {
  }

  /** Stripping is irrelevant to the outcome: ambiguity is exactly an
      ambiguous phrase occurring in the lowercased text. */
  lemma AmbiguedadSinStrip(texto: string)
    ensures DetectarAmbiguedad(texto) <==> AnyOccurs(RespuestasAmbiguas(), Lower(texto))
  {
    StripLower(texto);
    FrasesSinEspaciosExternos();
    forall k | 0 <= k < |RespuestasAmbiguas()|
      ensures Occurs(RespuestasAmbiguas()[k], Strip(Lower(texto))) <==> Occurs(RespuestasAmbiguas()[k], Lower(texto))
    {
      OccursStrip(RespuestasAmbiguas()[k], Lower(texto));
    }
  }

  /** An ambiguous answer stays ambiguous whatever text surrounds it. */
  lemma AmbiguedadEnContexto(a: string, t: string, b: string)
    requires DetectarAmbiguedad(t)
    ensures DetectarAmbiguedad(a + t + b)
  {
    AmbiguedadSinStrip(t);
    AmbiguedadSinStrip(a + t + b);
    var k :| 0 <= k < |RespuestasAmbiguas()| && Occurs(RespuestasAmbiguas()[k], Lower(t));
    OccursInContext(RespuestasAmbiguas()[k], Lower(a), Lower(t), Lower(b));
    LowerConcat(a + t, b);
    LowerConcat(a, t);
  }

  /** A reply asking the user to rephrase, without leaving `estadoActual`. */
  function GenerarRespuestaAclaratoria(estadoActual: string): (r: Respuesta)
    ensures r.estado == estadoActual
    ensures r.modoEntrada == TextoLibre && r.sugerencias == []
    ensures r.mensaje == PideAclaracion
  {
    Respuesta(estadoActual, PideAclaracion, TextoLibre, [])
  }

  /** The empathetic phrase for each emotion kind that has one. */
  function Frases(): map<string, string> {
    map[
      "tristeza" := "Lamento que te sientas así" + ", compartirlo ya es un primer paso importante. ",
      "ansiedad" := "Entiendo que puede ser difícil hablar de esto. ",
      "enojo" := "Gracias por expresar cómo te sientes. "]
  }

  /** `mensajeBase` preceded by the phrase for `tipo`, if there is one
      (callers that omit `tipo` pass "tristeza"). */
  function GenerarRespuestaEmpatica(mensajeBase: string, tipo: string): (r: string)
    ensures EndsWith(mensajeBase, r)
    ensures tipo in Frases() ==> StartsWith(Frases()[tipo], r) && |r| == |Frases()[tipo]| + |mensajeBase|
    ensures tipo !in Frases() ==> r == mensajeBase
    ensures tipo == "tristeza" ==> StartsWith("Lamento que te sientas así", r)
  {
    var frase := if tipo in Frases() then Frases()[tipo] else "";
    StartsWithConcat(frase, mensajeBase);
    EndsWithConcat(frase, mensajeBase);
    StartsWithConcat("Lamento que te sientas así", ", compartirlo ya es un primer paso importante. " + mensajeBase);
    frase + mensajeBase
  }

  // ---------------------------------------------------------------- pinned cases

  /** An ambiguous phrase found in the lowercased text makes it ambiguous. */
  lemma AmbiguaPorFrase(texto: string, minus: string, k: nat)
    requires Lower(texto) == minus
    requires k < |RespuestasAmbiguas()| && StartsWith(RespuestasAmbiguas()[k], minus)
    ensures DetectarAmbiguedad(texto)
  {
    AmbiguedadSinStrip(texto);
    assert OccursAt(RespuestasAmbiguas()[k], Lower(texto), 0);
  }

  /** A lowercased text holding no ambiguous phrase is not ambiguous. */
  lemma NoAmbiguaPorMinusculas(texto: string, minus: string)
    requires Lower(texto) == minus
    requires !AnyOccurs(RespuestasAmbiguas(), minus)
    ensures !DetectarAmbiguedad(texto)
  {
    AmbiguedadSinStrip(texto);
  }

  lemma AmbiguaNoSe()
    ensures DetectarAmbiguedad("no sé")
  {
    LowerIsLower("no sé");
    AmbiguaPorFrase("no sé", "no sé", 0);
  }

  lemma AmbiguaQuizas()
    ensures DetectarAmbiguedad("Quizás")
  {
    assert Lower("Quizás") == "quizás";
    AmbiguaPorFrase("Quizás", "quizás", 3);
  }

  lemma AmbiguaNpi()
    ensures DetectarAmbiguedad("npi")
  {
    LowerIsLower("npi");
    AmbiguaPorFrase("npi", "npi", 8);
  }

  lemma AmbiguaNoEstoySeguro()
    ensures DetectarAmbiguedad("No estoy seguro")
  {
    assert Lower("No estoy seguro") == "no estoy seguro";
    AmbiguaPorFrase("No estoy seguro", "no estoy seguro", 2);
  }

  lemma SinAmbiguasEnTodosLosDias()
    ensures !AnyOccurs(RespuestasAmbiguas(), "todos los días")
  {
    var x := "todos los días";
    forall k | 0 <= k < |RespuestasAmbiguas()| ensures !Occurs(RespuestasAmbiguas()[k], x) {
      var w := RespuestasAmbiguas()[k];
      if k == 4 {
        NotOccursByChar(w, x, 'v');
      } else {
        NotOccursByChar(w, x, w[0]);
      }
    }
  }

  lemma NoAmbiguaTodosLosDias()
    ensures !DetectarAmbiguedad("Todos los días")
  {
    assert Lower("Todos los días") == "todos los días";
    SinAmbiguasEnTodosLosDias();
    NoAmbiguaPorMinusculas("Todos los días", "todos los días");
  }

  lemma SinAmbiguasEnUnaSemana()
    ensures !AnyOccurs(RespuestasAmbiguas(), "una semana")
  {
    var x := "una semana";
    forall k | 0 <= k < |RespuestasAmbiguas()| ensures !Occurs(RespuestasAmbiguas()[k], x) {
      var w := RespuestasAmbiguas()[k];
      if k == 8 || k == 9 {
        NotOccursByChar(w, x, 'i');
      } else if w[0] == 'n' {
        NotOccursByChar(w, x, 'o');
      } else {
        NotOccursByChar(w, x, w[0]);
      }
    }
  }

  lemma NoAmbiguaUnaSemana()
    ensures !DetectarAmbiguedad("Una semana")
  {
    assert Lower("Una semana") == "una semana";
    SinAmbiguasEnUnaSemana();
    NoAmbiguaPorMinusculas("Una semana", "una semana");
  }

  lemma SinAmbiguasEnOcho()
    ensures !AnyOccurs(RespuestasAmbiguas(), "8")
  {
    forall k | 0 <= k < |RespuestasAmbiguas()| ensures !Occurs(RespuestasAmbiguas()[k], "8") {
      NotOccursByChar(RespuestasAmbiguas()[k], "8", RespuestasAmbiguas()[k][0]);
    }
  }

  lemma NoAmbiguaOcho()
    ensures !DetectarAmbiguedad("8")
  {
    assert Lower("8") == "8";
    SinAmbiguasEnOcho();
    NoAmbiguaPorMinusculas("8", "8");
  }

  lemma SinAmbiguasEnSi()
    ensures !AnyOccurs(RespuestasAmbiguas(), "sí")
  {
    forall k | 0 <= k < |RespuestasAmbiguas()| ensures !Occurs(RespuestasAmbiguas()[k], "sí") {
      var w := RespuestasAmbiguas()[k];
      if k == 4 {
        NotOccursByChar(w, "sí", 't');
      } else {
        NotOccursByChar(w, "sí", w[0]);
      }
    }
  }

  lemma NoAmbiguaSi()
    ensures !DetectarAmbiguedad("Sí")
  {
    assert Lower("Sí") == "sí";
    SinAmbiguasEnSi();
    NoAmbiguaPorMinusculas("Sí", "sí");
  }
}
