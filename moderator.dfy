/**
 * Content moderation: a list of banned words read from a text file, one
 * per line, and a substring test of a message against it.
 */
module Moderator {
  import opened Wrappers
  import opened Text

  /** The banned-word set built from the word file's lines; `None` stands
      for a missing file, which yields the empty set. Each line is stripped
      and lowercased, and blank lines are skipped. */
  function CargarPalabrasProhibidas(lineas: Option<seq<string>>): (r: set<string>)
    ensures lineas.None? ==> r == {}
    ensures forall p :: p in r ==> PalabraNormalizada(p)
    ensures lineas.Some? ==> forall l :: l in lineas.value && Strip(l) != [] ==> Lower(Strip(l)) in r
    ensures lineas.Some? ==> forall p :: p in r ==> exists l :: l in lineas.value && Strip(l) != [] && p == Lower(Strip(l))
  {
    match lineas
    case None => {}
    case Some(ls) =>
      forall l | l in ls && Strip(l) != [] ensures PalabraNormalizada(Lower(Strip(l))) {
        LineaNormalizada(l);
      }
      set l | l in ls && Strip(l) != [] :: Lower(Strip(l))
  }

  /** A non-empty lowercase word with no space at either end. */
  predicate PalabraNormalizada(p: string) {
    p != [] && IsLower(p) && !IsSpace(p[0]) && !IsSpace(p[|p| - 1])
  }

  lemma LineaNormalizada(l: string)
    requires Strip(l) != []
    ensures PalabraNormalizada(Lower(Strip(l)))
  {
    var x := Strip(l);
    LowerIsLower(x);
    assert Lower(x)[0] == LowerChar(x[0]);
    assert Lower(x)[|x| - 1] == LowerChar(x[|x| - 1]);
  }

  /** Some banned word occurs in the lowercased text. With no list (the
      missing file) nothing is flagged, and a flagged word is never longer
      than the message. */
  predicate ContieneLenguajeInapropiado(texto: string, palabras: set<string>)
    ensures palabras == {} ==> !ContieneLenguajeInapropiado(texto, palabras)
    ensures ContieneLenguajeInapropiado(texto, palabras) ==> exists p :: p in palabras && |p| <= |texto|
  {
    exists p :: p in palabras && Occurs(p, Lower(texto))
  }

  /** Loaded lists never hold the empty word, so the empty message is never
      flagged. */
  lemma MensajeVacioPermitido(lineas: Option<seq<string>>)
    ensures !ContieneLenguajeInapropiado("", CargarPalabrasProhibidas(lineas))
  {
    var palabras := CargarPalabrasProhibidas(lineas);
    forall p | p in palabras ensures !Occurs(p, Lower("")) {
      assert p != [];
    }
  }

  /** A message holding a listed word, in any letter case and with any
      surrounding text, is flagged. */
  lemma PalabraListadaDetectada(lineas: seq<string>, l: string, a: string, b: string)
    requires l in lineas && Strip(l) != []
    ensures ContieneLenguajeInapropiado(a + Strip(l) + b, CargarPalabrasProhibidas(Some(lineas)))
  {
    var w := Lower(Strip(l));
    assert OccursAt(w, w, 0);
    OccursInContext(w, Lower(a), w, Lower(b));
    LowerConcat(a + Strip(l), b);
    LowerConcat(a, Strip(l));
  }
}
