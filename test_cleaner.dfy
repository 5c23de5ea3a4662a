/**
 * The three sentences of the cleaner's tests. Each is written as the
 * concatenation of its words, each word with the whitespace before it, so
 * that the word-by-word lemmas of `Cleaner` apply.
 */
module TestCleaner {
  import opened Text
  import opened Cleaner

  // ---------------------------------------------------------------- steps

  /** A word with no URL in its lowercase form, split into three runs. */
  lemma Pieza(s: string, a: string, b: string, c: string, ka: string, kb: string, kc: string)
    requires Lower(s) == a + b + c && NoUrl(a + b + c)
    requires KeepAllowed(a) == ka && KeepAllowed(b) == kb && KeepAllowed(c) == kc
    ensures Conservado(s) == ka + kb + kc
  {
    RemoveUrlsNoUrl(a + b + c);
    KeepAllowedConcat(a + b, c);
    KeepAllowedConcat(a, b);
  }

  /** A word with no URL whose lowercase form is a whitespace run and
      admitted characters. */
  lemma Llana(s: string, sp: string, w: string)
    requires Lower(s) == sp + w && NoUrl(sp + w)
    requires Blancos(sp) && forall i :: 0 <= i < |w| ==> Permitido(w[i])
    ensures Conservado(s) == sp + w && SinBlancos(w)
  {
    RemoveUrlsNoUrl(sp + w);
    var l := sp + w;
    forall i | 0 <= i < |l| ensures Permitido(l[i]) || IsSpace(l[i]) {
      if i >= |sp| {
        assert l[i] == w[i - |sp|];
      }
    }
    forall i | 0 <= i < |w| ensures !IsSpace(w[i]) {
      PermitidoEsMinuscula(w[i]);
    }
  }

  /** A word that is one URL after a space, followed by a word `b` whose
      kept characters are `sp + w`: only the space of the URL's word is
      kept before them. */
  lemma UrlSola(s: string, u: string, b: string, sp: string, w: string)
    requires Lower(s) == " " + u && UrlAt(u, 0) && SinBlancos(u)
    requires b != [] && IsSpace(b[0]) && Conservado(b) == sp + w
    ensures Conservado(s + b) == (" " + sp) + w
  {
    var l := " " + u;
    assert !UrlAt(l, 0) && l[1..] == u;
    LeadAtLeast(u, |u|);
    assert u[Lead(u)..] == [];
    assert RemoveUrls(l) == " ";
    ConservadoConcat(s, b);
  }

  /** The first word of a sentence, kept as the word `w`. */
  lemma Primera(s: string, w: string)
    requires Conservado(s) == w && w != [] && SinBlancos(w)
    ensures CollapseSpaces(w) == w
  {
    CollapseSpacesPalabra([], w);
    assert [] + w == w;
  }

  /** Appending a further word `b`, whose kept characters are the run `sp`
      followed by the word `w`, to a prefix `a` whose kept characters `ka`
      collapse to `ca`. */
  lemma Paso(a: string, b: string, ka: string, ca: string, sp: string, w: string)
    requires b != [] && IsSpace(b[0])
    requires Conservado(a) == ka && CollapseSpaces(ka) == ca
    requires ka != [] && !IsSpace(ka[|ka| - 1])
    requires ca != [] && !IsSpace(ca[0])
    requires Conservado(b) == sp + w && sp != [] && Blancos(sp) && w != [] && SinBlancos(w)
    ensures Conservado(a + b) == ka + (sp + w)
    ensures CollapseSpaces(ka + (sp + w)) == ca + (" " + w)
    ensures !IsSpace((ka + (sp + w))[|ka + (sp + w)| - 1])
    ensures (ca + (" " + w))[0] == ca[0]
    ensures !IsSpace((ca + (" " + w))[|ca + (" " + w)| - 1])
  {
    CollapseSpacesPalabra(sp, w);
    ConservadoUnido(a, b, ka, sp + w, ca, " " + w);
  }

  // ---------------------------------------------------------------- the basic sentence

  lemma HolaMinuscula()
    ensures Lower("¡Hola!") == "¡" + "hola" + "!" && NoUrl("¡" + "hola" + "!")
  {
  }

  lemma HolaFiltro()
    ensures KeepAllowed("¡") == [] && KeepAllowed("hola") == "hola" && KeepAllowed("!") == []
    ensures SinBlancos("hola")
  {
  }

  lemma Hola()
    ensures Conservado("¡Hola!") == "hola" && SinBlancos("hola")
  {
    HolaMinuscula();
    HolaFiltro();
    Pieza("¡Hola!", "¡", "hola", "!", [], "hola", []);
  }

  lemma ComoMinuscula()
    ensures Lower(" ¿Cómo") == " " + "¿" + "cómo" && NoUrl(" " + "¿" + "cómo")
  {
  }

  lemma ComoFiltro()
    ensures KeepAllowed(" ") == " " && KeepAllowed("¿") == [] && KeepAllowed("cómo") == "cómo"
    ensures Blancos(" ") && SinBlancos("cómo")
  {
  }

  lemma Como()
    ensures Conservado(" ¿Cómo") == " " + "cómo" && Blancos(" ") && SinBlancos("cómo")
  {
    ComoMinuscula();
    ComoFiltro();
    Pieza(" ¿Cómo", " ", "¿", "cómo", " ", [], "cómo");
  }

  lemma EstasMinuscula()
    ensures Lower(" estás?") == " " + "estás" + "?" && NoUrl(" " + "estás" + "?")
  {
    LowerIsLower(" estás?");
  }

  lemma EstasFiltro()
    ensures KeepAllowed(" ") == " " && KeepAllowed("estás") == "estás" && KeepAllowed("?") == []
    ensures SinBlancos("estás")
  {
  }

  lemma Estas()
    ensures Conservado(" estás?") == " " + "estás" && SinBlancos("estás")
  {
    EstasMinuscula();
    EstasFiltro();
    Pieza(" estás?", " ", "estás", "?", " ", "estás", []);
  }

  lemma EstoMinuscula()
    ensures Lower(" Esto") == " " + "esto" + [] && NoUrl(" " + "esto" + [])
  {
  }

  lemma EstoFiltro()
    ensures KeepAllowed(" ") == " " && KeepAllowed("esto") == "esto" && KeepAllowed([]) == []
    ensures SinBlancos("esto")
  {
  }

  lemma Esto()
    ensures Conservado(" Esto") == " " + "esto" && SinBlancos("esto")
  {
    EstoMinuscula();
    EstoFiltro();
    Pieza(" Esto", " ", "esto", [], " ", "esto", []);
  }

  lemma EsMinuscula()
    ensures Lower(" es") == " " + "es" + [] && NoUrl(" " + "es" + [])
  {
    LowerIsLower(" es");
  }

  lemma EsFiltro()
    ensures KeepAllowed(" ") == " " && KeepAllowed("es") == "es" && KeepAllowed([]) == []
    ensures SinBlancos("es")
  {
  }

  lemma Es()
    ensures Conservado(" es") == " " + "es" && SinBlancos("es")
  {
    EsMinuscula();
    EsFiltro();
    Pieza(" es", " ", "es", [], " ", "es", []);
  }

  lemma UnMinuscula()
    ensures Lower(" un") == " " + "un" + [] && NoUrl(" " + "un" + [])
  {
    LowerIsLower(" un");
  }

  lemma UnFiltro()
    ensures KeepAllowed(" ") == " " && KeepAllowed("un") == "un" && KeepAllowed([]) == []
    ensures SinBlancos("un")
  {
  }

  lemma Un()
    ensures Conservado(" un") == " " + "un" && SinBlancos("un")
  {
    UnMinuscula();
    UnFiltro();
    Pieza(" un", " ", "un", [], " ", "un", []);
  }

  lemma TestMinuscula()
    ensures Lower(" test...") == " " + "test" + "..." && NoUrl(" " + "test" + "...")
  {
    LowerIsLower(" test...");
  }

  lemma TestFiltro()
    ensures KeepAllowed(" ") == " " && KeepAllowed("test") == "test" && KeepAllowed("...") == []
    ensures SinBlancos("test")
  {
  }

  lemma Test()
    ensures Conservado(" test...") == " " + "test" && SinBlancos("test")
  {
    TestMinuscula();
    TestFiltro();
    Pieza(" test...", " ", "test", "...", " ", "test", []);
  }

  lemma BasicaUnida()
    ensures "hola" + (" " + "cómo") + (" " + "estás") + (" " + "esto") + (" " + "es") + (" " + "un")
      + (" " + "test") == "hola cómo estás esto es un test"
  {
  }

  /** `test_limpieza_basica`: lowercasing, dropping punctuation and keeping
      accented letters. */
  lemma LimpiezaBasica()
    ensures LimpiarTexto("¡Hola!" + " ¿Cómo" + " estás?" + " Esto" + " es" + " un" + " test...")
         == "hola cómo estás esto es un test"
  {
    Hola(); Como(); Estas(); Esto(); Es(); Un(); Test();
    var a, k, c := "¡Hola!", "hola", "hola";
    Primera(a, k);
    Paso(a, " ¿Cómo", k, c, " ", "cómo");
    a, k, c := a + " ¿Cómo", k + (" " + "cómo"), c + (" " + "cómo");
    Paso(a, " estás?", k, c, " ", "estás");
    a, k, c := a + " estás?", k + (" " + "estás"), c + (" " + "estás");
    Paso(a, " Esto", k, c, " ", "esto");
    a, k, c := a + " Esto", k + (" " + "esto"), c + (" " + "esto");
    Paso(a, " es", k, c, " ", "es");
    a, k, c := a + " es", k + (" " + "es"), c + (" " + "es");
    Paso(a, " un", k, c, " ", "un");
    a, k, c := a + " un", k + (" " + "un"), c + (" " + "un");
    Paso(a, " test...", k, c, " ", "test");
    a, k, c := a + " test...", k + (" " + "test"), c + (" " + "test");
    LimpiarDeConservado(a, k, c);
    BasicaUnida();
  }

  // ---------------------------------------------------------------- the sentence with a URL

  lemma VisitaMinuscula()
    ensures Lower("Visita") == [] + "visita" && NoUrl([] + "visita")
    ensures Blancos([]) && forall i :: 0 <= i < |"visita"| ==> Permitido("visita"[i])
  {
  }

  lemma UrlMinuscula()
    ensures Lower(" http://example.com") == " " + "http://example.com"
    ensures UrlAt("http://example.com", 0) && SinBlancos("http://example.com")
  {
    LowerIsLower(" http://example.com");
  }

  lemma ParaMinuscula()
    ensures Lower(" para") == " " + "para" && NoUrl(" " + "para")
    ensures Blancos(" ") && forall i :: 0 <= i < |"para"| ==> Permitido("para"[i])
  {
    LowerIsLower(" para");
  }

  lemma Para()
    ensures Conservado(" para") == " " + "para" && SinBlancos("para")
  {
    ParaMinuscula();
    Llana(" para", " ", "para");
  }

  /** The URL and the word after it: two spaces, then the word. */
  lemma UrlPara()
    ensures Conservado(" http://example.com" + " para") == (" " + " ") + "para"
    ensures Blancos(" " + " ") && SinBlancos("para")
  {
    UrlMinuscula();
    Para();
    UrlSola(" http://example.com", "http://example.com", " para", " ", "para");
  }

  lemma MasMinuscula()
    ensures Lower(" más") == " " + "más" && NoUrl(" " + "más")
    ensures Blancos(" ") && forall i :: 0 <= i < |"más"| ==> Permitido("más"[i])
  {
    LowerIsLower(" más");
  }

  lemma InfoMinuscula()
    ensures Lower(" info") == " " + "info" && NoUrl(" " + "info")
    ensures Blancos(" ") && forall i :: 0 <= i < |"info"| ==> Permitido("info"[i])
  {
    LowerIsLower(" info");
  }

  lemma UrlUnida()
    ensures "visita" + (" " + "para") + (" " + "más") + (" " + "info") == "visita para más info"
    ensures "Visita" + " http://example.com" + " para" + " más" + " info"
         == "Visita" + (" http://example.com" + " para") + " más" + " info"
  {
  }

  /** `test_eliminacion_urls`: the URL and the space run around it
      disappear. */
  lemma EliminacionUrls()
    ensures LimpiarTexto("Visita" + " http://example.com" + " para" + " más" + " info")
         == "visita para más info"
  {
    VisitaMinuscula();
    Llana("Visita", [], "visita");
    UrlPara();
    MasMinuscula();
    Llana(" más", " ", "más");
    InfoMinuscula();
    Llana(" info", " ", "info");
    var a, k, c := "Visita", [] + "visita", "visita";
    Primera(a, "visita");
    Paso(a, " http://example.com" + " para", k, c, " " + " ", "para");
    a, k, c := a + (" http://example.com" + " para"), k + ((" " + " ") + "para"), c + (" " + "para");
    Paso(a, " más", k, c, " ", "más");
    a, k, c := a + " más", k + (" " + "más"), c + (" " + "más");
    Paso(a, " info", k, c, " ", "info");
    a, k, c := a + " info", k + (" " + "info"), c + (" " + "info");
    LimpiarDeConservado(a, k, c);
    UrlUnida();
  }

  // ---------------------------------------------------------------- the sentence with space runs

  lemma EstoSolo()
    ensures Lower("Esto") == [] + "esto" && NoUrl([] + "esto")
    ensures Blancos([]) && forall i :: 0 <= i < |"esto"| ==> Permitido("esto"[i])
  {
  }

  lemma EsEspaciado()
    ensures Lower("     es") == "     " + "es" && NoUrl("     " + "es")
    ensures Blancos("     ") && forall i :: 0 <= i < |"es"| ==> Permitido("es"[i])
  {
    LowerIsLower("     es");
  }

  lemma UnEspaciado()
    ensures Lower("   un") == "   " + "un" && NoUrl("   " + "un")
    ensures Blancos("   ") && forall i :: 0 <= i < |"un"| ==> Permitido("un"[i])
  {
    LowerIsLower("   un");
  }

  lemma TextoEspaciado()
    ensures Lower("    texto") == "    " + "texto" && NoUrl("    " + "texto")
    ensures Blancos("    ") && forall i :: 0 <= i < |"texto"| ==> Permitido("texto"[i])
  {
    LowerIsLower("    texto");
  }

  lemma ConEspaciado()
    ensures Lower("   con") == "   " + "con" && NoUrl("   " + "con")
    ensures Blancos("   ") && forall i :: 0 <= i < |"con"| ==> Permitido("con"[i])
  {
    LowerIsLower("   con");
  }

  lemma EspaciosEspaciado()
    ensures Lower("   espacios") == "   " + "espacios" && NoUrl("   " + "espacios")
    ensures Blancos("   ") && forall i :: 0 <= i < |"espacios"| ==> Permitido("espacios"[i])
  {
    LowerIsLower("   espacios");
  }

  lemma EspaciosUnida()
    ensures "esto" + (" " + "es") + (" " + "un") + (" " + "texto") + (" " + "con") + (" " + "espacios")
         == "esto es un texto con espacios"
  {
  }

  /** `test_espacios_extra`: every run of spaces between words becomes one
      space. */
  lemma EspaciosExtra()
    ensures LimpiarTexto("Esto" + "     es" + "   un" + "    texto" + "   con" + "   espacios")
         == "esto es un texto con espacios"
  {
    EstoSolo();
    Llana("Esto", [], "esto");
    EsEspaciado();
    Llana("     es", "     ", "es");
    UnEspaciado();
    Llana("   un", "   ", "un");
    TextoEspaciado();
    Llana("    texto", "    ", "texto");
    ConEspaciado();
    Llana("   con", "   ", "con");
    EspaciosEspaciado();
    Llana("   espacios", "   ", "espacios");
    var a, k, c := "Esto", [] + "esto", "esto";
    Primera(a, "esto");
    Paso(a, "     es", k, c, "     ", "es");
    a, k, c := a + "     es", k + ("     " + "es"), c + (" " + "es");
    Paso(a, "   un", k, c, "   ", "un");
    a, k, c := a + "   un", k + ("   " + "un"), c + (" " + "un");
    Paso(a, "    texto", k, c, "    ", "texto");
    a, k, c := a + "    texto", k + ("    " + "texto"), c + (" " + "texto");
    Paso(a, "   con", k, c, "   ", "con");
    a, k, c := a + "   con", k + ("   " + "con"), c + (" " + "con");
    Paso(a, "   espacios", k, c, "   ", "espacios");
    a, k, c := a + "   espacios", k + ("   " + "espacios"), c + (" " + "espacios");
    LimpiarDeConservado(a, k, c);
    EspaciosUnida();
  }
}
