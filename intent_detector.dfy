/**
 * Keyword intent detection: a text is affirmative when it contains an
 * affirmative keyword, otherwise negative when it contains a negative one,
 * otherwise unknown. Matching is plain substring search on the lowercased
 * text, and the affirmative list is consulted first.
 */
module IntentDetector {
  import opened Text

  function PalabrasAfirmativas(): seq<string> {
    ["sí", "claro", "por supuesto", "vale", "de acuerdo", "correcto", "acepto"]
  }

  function PalabrasNegativas(): seq<string> {
    ["no", "prefiero no", "rechazo", "nunca", "no quiero", "no deseo"]
  }

  datatype Intencion = Afirmativo | Negativo | Desconocido

  /** `detectar_intencion`: affirmative keywords first, then negative ones.
      No keyword is shorter than two characters, so a shorter text is never
      understood. */
  function DetectarIntencion(textoLimpio: string): (i: Intencion)
    ensures |textoLimpio| < 2 ==> i == Desconocido
  {
    PalabrasDeDosLetrasAlMenos();
    var texto := Lower(textoLimpio);
    if AnyOccurs(PalabrasAfirmativas(), texto) then Afirmativo
    else if AnyOccurs(PalabrasNegativas(), texto) then Negativo
    else Desconocido
  }

  lemma PalabrasDeDosLetrasAlMenos()
    ensures forall k :: 0 <= k < |PalabrasAfirmativas()| ==> |PalabrasAfirmativas()[k]| >= 2
    ensures forall k :: 0 <= k < |PalabrasNegativas()| ==> |PalabrasNegativas()[k]| >= 2
  {
  }

  /** Classification ignores case: a text and its lowercase agree. */
  lemma IntencionIgnoraMayusculas(t: string)
    ensures DetectarIntencion(Lower(t)) == DetectarIntencion(t)
  {
    LowerIdempotent(t);
  }

  /** An affirmative keyword decides the result even beside a negative one:
      whatever text surrounds an affirmative answer, it stays affirmative. */
  lemma AfirmativoEnContexto(a: string, t: string, b: string)
    requires DetectarIntencion(t) == Afirmativo
    ensures DetectarIntencion(a + t + b) == Afirmativo
  {
    var k :| 0 <= k < |PalabrasAfirmativas()| && Occurs(PalabrasAfirmativas()[k], Lower(t));
    OccursInContext(PalabrasAfirmativas()[k], Lower(a), Lower(t), Lower(b));
    LowerConcat(a + t, b);
    LowerConcat(a, t);
  }

  /** Without an affirmative keyword, surrounding text cannot remove a
      negative keyword: the result is negative or, if an affirmative keyword
      appears in the added text, affirmative. */
  lemma NegativoEnContexto(a: string, t: string, b: string)
    requires DetectarIntencion(t) == Negativo
    ensures DetectarIntencion(a + t + b) != Desconocido
  {
    var k :| 0 <= k < |PalabrasNegativas()| && Occurs(PalabrasNegativas()[k], Lower(t));
    OccursInContext(PalabrasNegativas()[k], Lower(a), Lower(t), Lower(b));
    LowerConcat(a + t, b);
    LowerConcat(a, t);
  }

  // ---------------------------------------------------------------- pinned cases

  /** An affirmative keyword at index `i` of the lowercased text. */
  lemma AfirmativoPorPalabra(texto: string, minus: string, k: nat, i: nat)
    requires Lower(texto) == minus
    requires k < |PalabrasAfirmativas()| && OccursAt(PalabrasAfirmativas()[k], minus, i)
    ensures DetectarIntencion(texto) == Afirmativo
  {
  }

  /** A negative keyword at index `i`, and no affirmative keyword anywhere. */
  lemma NegativoPorPalabra(texto: string, minus: string, k: nat, i: nat)
    requires Lower(texto) == minus
    requires !AnyOccurs(PalabrasAfirmativas(), minus)
    requires k < |PalabrasNegativas()| && OccursAt(PalabrasNegativas()[k], minus, i)
    ensures DetectarIntencion(texto) == Negativo
  {
  }

  /** No keyword of either list in the lowercased text. */
  lemma DesconocidoSinPalabras(texto: string, minus: string)
    requires Lower(texto) == minus
    requires !AnyOccurs(PalabrasAfirmativas(), minus)
    requires !AnyOccurs(PalabrasNegativas(), minus)
    ensures DetectarIntencion(texto) == Desconocido
  {
  }

  // The test sentences are written below as concatenations of short
  // literals; each denotes the same string as the sentence in one piece.

  lemma TrozosClaro()
    ensures Lower("Claro ") == "claro "
    ensures Lower("que sí, ") == "que sí, " && Lower("quiero continuar") == "quiero continuar"
  {
    LowerIsLower("que sí, ");
    LowerIsLower("quiero continuar");
  }

  lemma MinusculasClaro()
    ensures Lower("Claro " + "que sí, " + "quiero continuar") == "claro " + "que sí, " + "quiero continuar"
  {
    LowerConcat3("Claro ", "que sí, ", "quiero continuar");
    TrozosClaro();
  }

  lemma DetectaAfirmativoClaro()
    ensures DetectarIntencion("Claro " + "que sí, " + "quiero continuar") == Afirmativo
  {
    MinusculasClaro();
    OccursAtStart(PalabrasAfirmativas()[1], "claro ", "que sí, " + "quiero continuar");
    assert "claro " + "que sí, " + "quiero continuar" == "claro " + ("que sí, " + "quiero continuar");
    AfirmativoPorPalabra("Claro " + "que sí, " + "quiero continuar", "claro " + "que sí, " + "quiero continuar", 1, 0);
  }

  lemma NingunAfirmativoEnNoDeseoSeguir()
    ensures !AnyOccurs(PalabrasAfirmativas(), "no deseo " + "seguir con " + "la evaluación")
  {
    var x := "no deseo " + "seguir con " + "la evaluación";
    NotOccursByChar("sí", x, 'í');
    NotOccursByHead2("claro", x);
    NotOccursByChar("por supuesto", x, 'p');
    NingunAfirmativoEnNoDeseoSeguirResto();
  }

  lemma NingunAfirmativoEnNoDeseoSeguirResto()
    ensures forall k :: 3 <= k < |PalabrasAfirmativas()| ==> !Occurs(PalabrasAfirmativas()[k], "no deseo " + "seguir con " + "la evaluación")
  {
    var x := "no deseo " + "seguir con " + "la evaluación";
    NotOccursByHead2("le", x);
    NotOccursByPart("vale", x, "le", 2);
    NotOccursByHead3("de acuerdo", x);
    NotOccursByHead3("correcto", x);
    NotOccursByChar("acepto", x, 'p');
  }

  lemma TrozosNoDeseo()
    ensures Lower("No deseo ") == "no deseo "
    ensures Lower("seguir con ") == "seguir con " && Lower("la evaluación") == "la evaluación"
  {
    LowerIsLower("seguir con ");
    LowerIsLower("la evaluación");
  }

  lemma MinusculasNoDeseo()
    ensures Lower("No deseo " + "seguir con " + "la evaluación") == "no deseo " + "seguir con " + "la evaluación"
  {
    LowerConcat3("No deseo ", "seguir con ", "la evaluación");
    TrozosNoDeseo();
  }

  lemma DetectaNegativoNoDeseo()
    ensures DetectarIntencion("No deseo " + "seguir con " + "la evaluación") == Negativo
  {
    MinusculasNoDeseo();
    NingunAfirmativoEnNoDeseoSeguir();
    OccursAtStart(PalabrasNegativas()[0], "no deseo ", "seguir con " + "la evaluación");
    assert "no deseo " + "seguir con " + "la evaluación" == "no deseo " + ("seguir con " + "la evaluación");
    NegativoPorPalabra("No deseo " + "seguir con " + "la evaluación", "no deseo " + "seguir con " + "la evaluación", 0, 0);
  }

  lemma NingunAfirmativoEnQuizaMasTarde()
    ensures !AnyOccurs(PalabrasAfirmativas(), "quizá " + "más tarde")
  {
    var x := "quizá " + "más tarde";
    NotOccursByChar("sí", x, 'í');
    NotOccursByChar("claro", x, 'c');
    NotOccursByChar("por supuesto", x, 'p');
    NingunAfirmativoEnQuizaMasTardeResto();
  }

  lemma NingunAfirmativoEnQuizaMasTardeResto()
    ensures forall k :: 3 <= k < |PalabrasAfirmativas()| ==> !Occurs(PalabrasAfirmativas()[k], "quizá " + "más tarde")
  {
    var x := "quizá " + "más tarde";
    NotOccursByChar("vale", x, 'v');
    NotOccursByChar("de acuerdo", x, 'c');
    NotOccursByChar("correcto", x, 'c');
    NotOccursByChar("acepto", x, 'c');
  }

  lemma NingunNegativoEnQuizaMasTarde()
    ensures !AnyOccurs(PalabrasNegativas(), "quizá " + "más tarde")
  {
    var x := "quizá " + "más tarde";
    NotOccursByChar("no", x, 'n');
    NotOccursByChar("prefiero no", x, 'n');
    NotOccursByChar("rechazo", x, 'c');
    NotOccursByChar("nunca", x, 'n');
    NotOccursByChar("no quiero", x, 'n');
    NotOccursByChar("no deseo", x, 'n');
  }

  lemma DetectaDesconocidoQuiza()
    ensures DetectarIntencion("Quizá " + "más tarde") == Desconocido
  {
    LowerConcat("Quizá ", "más tarde");
    assert Lower("Quizá ") == "quizá ";
    LowerIsLower("más tarde");
    NingunAfirmativoEnQuizaMasTarde();
    NingunNegativoEnQuizaMasTarde();
    DesconocidoSinPalabras("Quizá " + "más tarde", "quizá " + "más tarde");
  }

  lemma MinusculaSi()
    ensures Lower("Sí, ") == "sí, "
  {
  }

  /** An answer opening with "Sí, " is affirmative, whatever follows it. */
  lemma AfirmativoConSi(resto: string)
    ensures DetectarIntencion("Sí, " + resto) == Afirmativo
  {
    LowerConcat("Sí, ", resto);
    MinusculaSi();
    OccursAtStart(PalabrasAfirmativas()[0], "sí, ", Lower(resto));
    AfirmativoPorPalabra("Sí, " + resto, "sí, " + Lower(resto), 0, 0);
  }

  lemma DetectaAfirmativoQuieroContinuar()
    ensures DetectarIntencion("Sí, " + "quiero continuar") == Afirmativo
  {
    AfirmativoConSi("quiero continuar");
  }

  lemma DetectaAfirmativoSentidoTriste()
    ensures DetectarIntencion("Sí, " + "me he sentido triste") == Afirmativo
  {
    AfirmativoConSi("me he sentido triste");
  }

  lemma NingunAfirmativoEnNoDeseoContinuar()
    ensures !AnyOccurs(PalabrasAfirmativas(), "no deseo " + "continuar")
  {
    var x := "no deseo " + "continuar";
    NotOccursByChar("sí", x, 'í');
    NotOccursByChar("claro", x, 'l');
    NotOccursByChar("por supuesto", x, 'p');
    NingunAfirmativoEnNoDeseoContinuarResto();
  }

  lemma NingunAfirmativoEnNoDeseoContinuarResto()
    ensures forall k :: 3 <= k < |PalabrasAfirmativas()| ==> !Occurs(PalabrasAfirmativas()[k], "no deseo " + "continuar")
  {
    var x := "no deseo " + "continuar";
    NotOccursByChar("vale", x, 'v');
    NotOccursByHead3("de acuerdo", x);
    NotOccursByHead3("correcto", x);
    NotOccursByChar("acepto", x, 'p');
  }

  lemma DetectaNegativoNoDeseoContinuar()
    ensures DetectarIntencion("No deseo " + "continuar") == Negativo
  {
    LowerConcat("No deseo ", "continuar");
    TrozosNoDeseo();
    LowerIsLower("continuar");
    NingunAfirmativoEnNoDeseoContinuar();
    OccursAtStart(PalabrasNegativas()[0], "no deseo ", "continuar");
    NegativoPorPalabra("No deseo " + "continuar", "no deseo " + "continuar", 0, 0);
  }

  lemma MinusculaNoComa()
    ensures Lower("No, ") == "no, "
  {
  }

  lemma NingunAfirmativoEnNoEstoyTriste()
    ensures !AnyOccurs(PalabrasAfirmativas(), "no, " + "no estoy triste")
  {
    var x := "no, " + "no estoy triste";
    NotOccursByChar("sí", x, 'í');
    NotOccursByChar("claro", x, 'l');
    NotOccursByChar("por supuesto", x, 'p');
    NingunAfirmativoEnNoEstoyTristeResto();
  }

  lemma NingunAfirmativoEnNoEstoyTristeResto()
    ensures forall k :: 3 <= k < |PalabrasAfirmativas()| ==> !Occurs(PalabrasAfirmativas()[k], "no, " + "no estoy triste")
  {
    var x := "no, " + "no estoy triste";
    NotOccursByChar("vale", x, 'v');
    NotOccursByChar("de acuerdo", x, 'd');
    NotOccursByChar("correcto", x, 'c');
    NotOccursByChar("acepto", x, 'c');
  }

  lemma DetectaNegativoNoEstoyTriste()
    ensures DetectarIntencion("No, " + "no estoy triste") == Negativo
  {
    LowerConcat("No, ", "no estoy triste");
    MinusculaNoComa();
    LowerIsLower("no estoy triste");
    NingunAfirmativoEnNoEstoyTriste();
    OccursAtStart(PalabrasNegativas()[0], "no, ", "no estoy triste");
    NegativoPorPalabra("No, " + "no estoy triste", "no, " + "no estoy triste", 0, 0);
  }
}
