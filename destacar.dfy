/**
 * Formatting for yes/no questions: a bold header and an example answer
 * placed in front of the question text.
 */
module Destacar {
  import opened Text
  import opened IntentDetector

  function Cabecera(): string {
    "**Indica SI o NO en tu Respuesta**\n"
  }

  function Subencabezado(): string {
    "*Por ejemplo, 'Si, continuemos.'*\n\n"
  }

  /** The question preceded by the header and the example line. */
  function DestacarPreguntaBinaria(texto: string): (r: string)
    ensures StartsWith(Cabecera() + Subencabezado(), r)
    ensures EndsWith(texto, r)
    ensures |r| == |Cabecera()| + |Subencabezado()| + |texto|
  {
    Cabecera() + Subencabezado() + texto
  }

  /** The example answer the header proposes, written without the accent
      on "sí", holds no affirmative and no negative keyword: the intent
      detector classifies it as unknown. */
  lemma EjemploDeCabeceraEsDesconocido()
    ensures DetectarIntencion("Si, continuemos.") == Desconocido
  {
    assert Lower("Si, continuemos.") == "si, continuemos.";
    EjemploSinAfirmativos();
    EjemploSinNegativos();
  }

  lemma EjemploSinAfirmativos()
    ensures !AnyOccurs(PalabrasAfirmativas(), "si, continuemos.")
  {
    var x := "si, continuemos.";
    forall k | 0 <= k < |PalabrasAfirmativas()| ensures !Occurs(PalabrasAfirmativas()[k], x) {
      var w := PalabrasAfirmativas()[k];
      if k == 0 {
        NotOccursByChar(w, x, 'í');
      } else if k == 1 {
        NotOccursByChar(w, x, 'l');
      } else if k == 5 {
        NotOccursByChar(w, x, 'r');
      } else {
        NotOccursByChar(w, x, w[0]);
      }
    }
  }

  lemma EjemploSinNegativos()
    ensures !AnyOccurs(PalabrasNegativas(), "si, continuemos.")
  {
    var x := "si, continuemos.";
    NotOccursByHead2("no", x);
    NotOccursByChar("prefiero no", x, 'p');
    NotOccursByChar("rechazo", x, 'r');
    NotOccursByChar("nunca", x, 'a');
    NotOccursByChar("no quiero", x, 'q');
    NotOccursByChar("no deseo", x, 'd');
  }
}
