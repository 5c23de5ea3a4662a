/**
 * Input normalisation: lowercase, remove URLs (`http` followed by a run of
 * non-whitespace), drop every character that is not a lowercase letter,
 * an accented vowel, `ñ`, `ü`, a digit or whitespace, collapse whitespace
 * runs to one space, and strip the ends.
 */
module Cleaner {
  import opened Text

  // ---------------------------------------------------------------- URLs

  /** Length of the leading run of non-whitespace characters. */
  function Lead(s: string): (n: nat)
    ensures n <= |s|
    ensures forall i :: 0 <= i < n ==> !IsSpace(s[i])
    ensures n < |s| ==> IsSpace(s[n])
  {
    if s == [] || IsSpace(s[0]) then 0 else 1 + Lead(s[1..])
  }

  /** The regular expression `http\S+` matches at index `i` (its shortest
      match, `http` and one more non-whitespace character). */
  predicate UrlAt(s: string, i: int) {
    0 <= i && i + 5 <= |s|
    && s[i] == 'h' && s[i + 1] == 't' && s[i + 2] == 't' && s[i + 3] == 'p' && !IsSpace(s[i + 4])
  }

  predicate NoUrl(s: string) {
    forall i :: 0 <= i < |s| ==> !UrlAt(s, i)
  }

  /** `re.sub(r"http\S+", "", s)`: scanning from the left, every match is
      removed together with the whole non-whitespace run it starts. */
  function RemoveUrls(s: string): (r: string)
    ensures |r| <= |s|
    decreases |s|
  {
    if s == [] then []
    else if UrlAt(s, 0) then
      RemoveUrls(s[Lead(s)..])
    else [s[0]] + RemoveUrls(s[1..])
  }

  /** The leading non-whitespace run of the result is copied from the input. */
  lemma {:induction false} RemoveUrlsLead(s: string)
    ensures Lead(RemoveUrls(s)) <= |s|
    ensures forall j :: 0 <= j < Lead(RemoveUrls(s)) ==> RemoveUrls(s)[j] == s[j]
    decreases |s|
  {
    var r := RemoveUrls(s);
    if s == [] {
    } else if UrlAt(s, 0) {
      var rest := s[Lead(s)..];
      if rest != [] {
        assert r == RemoveUrls(rest);
        assert IsSpace(rest[0]) && !UrlAt(rest, 0);
        assert RemoveUrls(rest) == [rest[0]] + RemoveUrls(rest[1..]);
      }
    } else {
      var tail := RemoveUrls(s[1..]);
      RemoveUrlsLead(s[1..]);
      assert forall j :: 1 <= j < |r| ==> r[j] == tail[j - 1];
    }
  }

  /** No match of `http\S+` is left in the result. */
  lemma {:induction false} RemoveUrlsSinUrl(s: string)
    ensures NoUrl(RemoveUrls(s))
    decreases |s|
  {
    if s == [] {
    } else if UrlAt(s, 0) {
      RemoveUrlsSinUrl(s[Lead(s)..]);
    } else {
      var tail := RemoveUrls(s[1..]);
      var r := [s[0]] + tail;
      RemoveUrlsSinUrl(s[1..]);
      forall i | 1 <= i < |r| ensures !UrlAt(r, i) {
        if UrlAt(r, i) {
          assert UrlAt(tail, i - 1);
        }
      }
      if UrlAt(r, 0) {
        UrlAlInicio(s, tail);
      }
    }
  }

  /** A match at the head of `[s[0]] + RemoveUrls(s[1..])` would be one at the
      head of `s`. */
  lemma UrlAlInicio(s: string, tail: string)
    requires s != [] && tail == RemoveUrls(s[1..])
    requires UrlAt([s[0]] + tail, 0)
    ensures UrlAt(s, 0)
  {
    var r := [s[0]] + tail;
    assert forall j :: 0 <= j < 4 ==> tail[j] == r[j + 1];
    LeadAtLeast(tail, 4);
    RemoveUrlsLead(s[1..]);
  }

  /** The first `k` characters are non-whitespace, so the run is at least `k` long. */
  lemma {:induction false} LeadAtLeast(s: string, k: nat)
    requires k <= |s| && forall j :: 0 <= j < k ==> !IsSpace(s[j])
    ensures Lead(s) >= k
  {
    if k > 0 {
      LeadAtLeast(s[1..], k - 1);
    }
  }

  /** Text without URLs is left as it is. */
  lemma {:induction false} RemoveUrlsNoUrl(s: string)
    requires NoUrl(s)
    ensures RemoveUrls(s) == s
    decreases |s|
  {
    if s != [] {
      assert !UrlAt(s, 0);
      forall i | 0 <= i < |s[1..]| ensures !UrlAt(s[1..], i) {
        if UrlAt(s[1..], i) {
          assert UrlAt(s, i + 1);
        }
      }
      RemoveUrlsNoUrl(s[1..]);
      assert s == [s[0]] + s[1..];
    }
  }

  // ---------------------------------------------------------------- alphabet

  /** The characters the class `[a-záéíóúñü0-9]` admits. */
  predicate Permitido(c: char) {
    ('a' <= c <= 'z') || c == 'á' || c == 'é' || c == 'í' || c == 'ó' || c == 'ú'
    || c == 'ñ' || c == 'ü' || ('0' <= c <= '9')
  }

  /** `re.sub(r"[^a-záéíóúñü0-9\s]", "", s)`: keep admitted characters and
      whitespace, in order. */
  function KeepAllowed(s: string): (r: string)
    ensures |r| <= |s|
    ensures forall i :: 0 <= i < |r| ==> Permitido(r[i]) || IsSpace(r[i])
    ensures (forall i :: 0 <= i < |s| ==> Permitido(s[i]) || IsSpace(s[i])) ==> r == s
  {
    if s == [] then []
    else
      var tail := KeepAllowed(s[1..]);
      if Permitido(s[0]) || IsSpace(s[0]) then
        assert (forall i :: 0 <= i < |s| ==> Permitido(s[i]) || IsSpace(s[i]))
          ==> (forall i :: 0 <= i < |s[1..]| ==> Permitido(s[1..][i]) || IsSpace(s[1..][i]));
        [s[0]] + tail
      else tail
  }

  // ---------------------------------------------------------------- spaces

  /** Whitespace at index `i` and at the next index. */
  predicate EspacioDoble(s: string, i: int) {
    0 <= i < |s| - 1 && IsSpace(s[i]) && IsSpace(s[i + 1])
  }

  /** No whitespace except the plain space, and never two spaces in a row. */
  predicate EspaciosSimples(s: string) {
    (forall i :: 0 <= i < |s| && IsSpace(s[i]) ==> s[i] == ' ')
    && (forall i :: 0 <= i < |s| ==> !EspacioDoble(s, i))
  }

  /** `re.sub(r"\s+", " ", s)`: each maximal whitespace run becomes one space. */
  function CollapseSpaces(s: string): (r: string)
    ensures |r| <= |s|
    ensures s != [] ==> r != [] && (IsSpace(r[0]) <==> IsSpace(s[0]))
    decreases |s|
  {
    if s == [] then []
    else if IsSpace(s[0]) then [' '] + CollapseSpaces(TrimStart(s[1..]))
    else [s[0]] + CollapseSpaces(s[1..])
  }

  /** Collapsing leaves only single plain spaces. */
  lemma {:induction false} CollapseSpacesSimples(s: string)
    ensures EspaciosSimples(CollapseSpaces(s))
    decreases |s|
  {
    if s != [] {
      if IsSpace(s[0]) {
        var t := CollapseSpaces(TrimStart(s[1..]));
        CollapseSpacesSimples(TrimStart(s[1..]));
        EspaciosSimplesCons(' ', t);
      } else {
        var t := CollapseSpaces(s[1..]);
        CollapseSpacesSimples(s[1..]);
        EspaciosSimplesCons(s[0], t);
      }
    }
  }

  /** Putting a plain space before text that does not start with whitespace,
      or a non-whitespace character before any text, keeps spaces single. */
  lemma EspaciosSimplesCons(c: char, t: string)
    requires EspaciosSimples(t)
    requires c == ' ' || !IsSpace(c)
    requires c == ' ' && t != [] ==> !IsSpace(t[0])
    ensures EspaciosSimples([c] + t)
  {
    var r := [c] + t;
    forall i ensures !EspacioDoble(r, i) {
      if 0 < i < |r| - 1 {
        assert r[i] == t[i - 1] && r[i + 1] == t[i];
        assert !EspacioDoble(t, i - 1);
      }
    }
    forall i | 0 <= i < |r| && IsSpace(r[i]) ensures r[i] == ' ' {
      if i > 0 {
        assert r[i] == t[i - 1];
      }
    }
  }

  /** Collapsing keeps admitted characters and turns whitespace into plain
      spaces, so it brings in no other character. */
  lemma {:induction false} CollapseSpacesPermitido(s: string)
    requires forall i :: 0 <= i < |s| ==> Permitido(s[i]) || IsSpace(s[i])
    ensures forall i :: 0 <= i < |CollapseSpaces(s)| ==> Permitido(CollapseSpaces(s)[i]) || CollapseSpaces(s)[i] == ' '
    decreases |s|, 1
  {
    if s != [] {
      var c, t := s[0], s[1..];
      assert s == [c] + t;
      forall i | 0 <= i < |t| ensures Permitido(t[i]) || IsSpace(t[i]) {
        assert t[i] == s[i + 1];
      }
      if IsSpace(c) {
        CollapseSpacesPermitidoBlanco(c, t);
      } else {
        CollapseSpacesPermitidoLetra(c, t);
      }
    }
  }

  lemma {:induction false} CollapseSpacesPermitidoBlanco(c: char, t: string)
    requires IsSpace(c)
    requires forall i :: 0 <= i < |t| ==> Permitido(t[i]) || IsSpace(t[i])
    ensures forall i :: 0 <= i < |CollapseSpaces([c] + t)| ==>
      Permitido(CollapseSpaces([c] + t)[i]) || CollapseSpaces([c] + t)[i] == ' '
    decreases |t| + 1, 0
  {
    CollapseSpacesBlanco(c, t);
    var rest := TrimStart(t);
    PermitidoSufijo(t, |t| - |rest|);
    CollapseSpacesPermitido(rest);
    ConsPermitido(' ', CollapseSpaces(rest));
  }

  lemma {:induction false} CollapseSpacesPermitidoLetra(c: char, t: string)
    requires !IsSpace(c) && Permitido(c)
    requires forall i :: 0 <= i < |t| ==> Permitido(t[i]) || IsSpace(t[i])
    ensures forall i :: 0 <= i < |CollapseSpaces([c] + t)| ==>
      Permitido(CollapseSpaces([c] + t)[i]) || CollapseSpaces([c] + t)[i] == ' '
    decreases |t| + 1, 0
  {
    CollapseSpacesLetra(c, t);
    CollapseSpacesPermitido(t);
    ConsPermitido(c, CollapseSpaces(t));
  }

  lemma PermitidoSufijo(t: string, k: nat)
    requires k <= |t|
    requires forall i :: 0 <= i < |t| ==> Permitido(t[i]) || IsSpace(t[i])
    ensures forall i :: 0 <= i < |t[k..]| ==> Permitido(t[k..][i]) || IsSpace(t[k..][i])
  {
    forall i | 0 <= i < |t[k..]| ensures Permitido(t[k..][i]) || IsSpace(t[k..][i]) {
      assert t[k..][i] == t[k + i];
    }
  }

  lemma ConsPermitido(c: char, t: string)
    requires Permitido(c) || c == ' '
    requires forall i :: 0 <= i < |t| ==> Permitido(t[i]) || t[i] == ' '
    ensures forall i :: 0 <= i < |[c] + t| ==> Permitido(([c] + t)[i]) || ([c] + t)[i] == ' '
  {
    forall i | 0 < i < |[c] + t| ensures Permitido(([c] + t)[i]) || ([c] + t)[i] == ' ' {
      assert ([c] + t)[i] == t[i - 1];
    }
  }

  /** Text whose whitespace is already single plain spaces is unchanged. */
  lemma {:induction false} CollapseSpacesNoOp(s: string)
    requires EspaciosSimples(s)
    ensures CollapseSpaces(s) == s
    decreases |s|
  {
    if s != [] {
      EspaciosSimplesResto(s);
      assert s == [s[0]] + s[1..];
      if IsSpace(s[0]) {
        CollapseSpacesBlanco(s[0], s[1..]);
        assert s[0] == ' ';
        assert TrimStart(s[1..]) == s[1..] by {
          if |s| > 1 {
            assert !EspacioDoble(s, 0);
            assert s[1..][0] == s[1];
          }
        }
      } else {
        CollapseSpacesLetra(s[0], s[1..]);
      }
      CollapseSpacesNoOp(s[1..]);
    }
  }

  /** Dropping the first character keeps spaces single. */
  lemma EspaciosSimplesResto(s: string)
    requires s != [] && EspaciosSimples(s)
    ensures EspaciosSimples(s[1..])
  {
    var t := s[1..];
    forall i | 0 <= i < |t| && IsSpace(t[i]) ensures t[i] == ' ' {
      assert t[i] == s[i + 1];
    }
    forall i ensures !EspacioDoble(t, i) {
      if 0 <= i < |t| - 1 {
        assert t[i] == s[i + 1] && t[i + 1] == s[i + 2];
        assert !EspacioDoble(s, i + 1);
      }
    }
  }

  // ---------------------------------------------------------------- pipeline

  /** A plain space at index `i` and at the next index. */
  predicate BlancoDoble(s: string, i: int) {
    0 <= i < |s| - 1 && s[i] == ' ' && s[i + 1] == ' '
  }

  /** The shape of every cleaned text: admitted characters and single
      spaces, with no space at either end. */
  predicate Limpio(s: string) {
    (forall i :: 0 <= i < |s| ==> Permitido(s[i]) || s[i] == ' ')
    && (forall i :: 0 <= i < |s| ==> !BlancoDoble(s, i))
    && (s != [] ==> s[0] != ' ' && s[|s| - 1] != ' ')
  }

  /** Stripping a text of admitted characters and single spaces yields a
      cleaned text. */
  lemma StripLimpio(d: string)
    requires forall i :: 0 <= i < |d| ==> Permitido(d[i]) || d[i] == ' '
    requires EspaciosSimples(d)
    ensures Limpio(Strip(d))
  {
    var a := StripIsSlice(d);
    var r := Strip(d);
    SinDobles(d);
    assert IsSpace(' ');
    SliceLimpio(d, a, a + |r|, r);
  }

  lemma SinDobles(d: string)
    requires EspaciosSimples(d)
    ensures forall i :: !BlancoDoble(d, i)
  {
    forall i ensures !BlancoDoble(d, i) {
      assert !EspacioDoble(d, i);
    }
  }

  /** A slice of admitted characters and single spaces, not starting or
      ending with a space, is a cleaned text. */
  lemma SliceLimpio(d: string, a: nat, b: nat, r: string)
    requires a <= b <= |d| && r == d[a..b]
    requires forall i :: 0 <= i < |d| ==> Permitido(d[i]) || d[i] == ' '
    requires forall i :: !BlancoDoble(d, i)
    requires r != [] ==> r[0] != ' ' && r[|r| - 1] != ' '
    ensures Limpio(r)
  {
    forall i | 0 <= i < |r| ensures Permitido(r[i]) || r[i] == ' ' {
      assert r[i] == d[a + i];
    }
    forall i ensures !BlancoDoble(r, i) {
      if 0 <= i < |r| - 1 {
        assert r[i] == d[a + i] && r[i + 1] == d[a + i + 1];
        assert !BlancoDoble(d, a + i);
      }
    }
  }

  /** What the first three steps keep: the admitted characters and the
      whitespace of the lowercased text outside URLs. */
  function Conservado(texto: string): string {
    KeepAllowed(RemoveUrls(Lower(texto)))
  }

  /** `limpiar_texto`. */
  function LimpiarTexto(texto: string): (r: string)
    ensures Limpio(r)
    ensures |r| <= |texto|
  {
    var c := Conservado(texto);
    var d := CollapseSpaces(c);
    CollapseSpacesPermitido(c);
    CollapseSpacesSimples(c);
    StripLimpio(d);
    Strip(d)
  }

  /** Admitted characters are not whitespace and are already lowercase. */
  lemma PermitidoEsMinuscula(c: char)
    requires Permitido(c)
    ensures !IsSpace(c) && !IsUpper(c)
  {
  }

  lemma LimpioEsMinuscula(s: string)
    requires Limpio(s)
    ensures Lower(s) == s
  {
    forall i | 0 <= i < |s| ensures Lower(s)[i] == s[i] {
      if s[i] != ' ' { PermitidoEsMinuscula(s[i]); }
    }
  }

  lemma LimpioEspaciosSimples(s: string)
    requires Limpio(s)
    ensures forall i :: 0 <= i < |s| ==> Permitido(s[i]) || IsSpace(s[i])
    ensures EspaciosSimples(s)
    ensures s != [] ==> !IsSpace(s[0]) && !IsSpace(s[|s| - 1])
  {
    forall i | 0 <= i < |s| ensures s[i] == ' ' || !IsSpace(s[i]) {
      if s[i] != ' ' { PermitidoEsMinuscula(s[i]); }
    }
    forall i ensures !EspacioDoble(s, i) {
      assert !BlancoDoble(s, i);
    }
  }

  /** A cleaned text free of URLs is its own cleaning. */
  lemma LimpiarFijo(s: string)
    requires Limpio(s) && NoUrl(s)
    ensures LimpiarTexto(s) == s
  {
    LimpioEsMinuscula(s);
    RemoveUrlsNoUrl(s);
    LimpioEspaciosSimples(s);
    CollapseSpacesNoOp(s);
    StripNoOp(s);
  }

  /** Cleaning a cleaned text changes nothing unless the cleaning itself
      produced a URL (as `LimpiarNoIdempotente` shows it can). */
  lemma LimpiarIdempotenteSinUrl(s: string)
    requires NoUrl(LimpiarTexto(s))
    ensures LimpiarTexto(LimpiarTexto(s)) == LimpiarTexto(s)
  {
    LimpiarFijo(LimpiarTexto(s));
  }

  /** Letter case does not affect the result. */
  lemma LimpiarIgnoraMayusculas(s: string)
    ensures LimpiarTexto(Lower(s)) == LimpiarTexto(s)
  {
    LowerIdempotent(s);
  }

  // ---------------------------------------------------------------- word by word

  /** A whitespace character after the text ends its leading run. */
  lemma {:induction false} LeadConcat(a: string, b: string)
    requires b != [] ==> IsSpace(b[0])
    ensures Lead(a + b) == Lead(a)
    decreases |a|
  {
    if a == [] {
      assert a + b == b;
    } else if !IsSpace(a[0]) {
      assert (a + b)[1..] == a[1..] + b;
      LeadConcat(a[1..], b);
    }
  }

  /** No URL reaches across whitespace, so URLs are removed separately on
      both sides of a text that starts with whitespace. */
  lemma {:induction false} RemoveUrlsConcat(a: string, b: string)
    requires b != [] ==> IsSpace(b[0])
    ensures RemoveUrls(a + b) == RemoveUrls(a) + RemoveUrls(b)
    decreases |a|
  {
    if a == [] {
      assert a + b == b;
    } else if b == [] {
      assert a + b == a;
    } else if UrlAt(a + b, 0) {
      assert UrlAt(a, 0);
      LeadConcat(a, b);
      var n := Lead(a);
      DropConcat(a, b, n);
      RemoveUrlsConcat(a[n..], b);
    } else {
      assert !UrlAt(a, 0);
      DropConcat(a, b, 1);
      RemoveUrlsConcat(a[1..], b);
      ConsConcat(a[0], RemoveUrls(a[1..]), RemoveUrls(b));
    }
  }

  lemma DropConcat(a: string, b: string, n: nat)
    requires n <= |a|
    ensures (a + b)[n..] == a[n..] + b
  {
  }

  /** The character filter works character by character. */
  lemma {:induction false} KeepAllowedConcat(a: string, b: string)
    ensures KeepAllowed(a + b) == KeepAllowed(a) + KeepAllowed(b)
    decreases |a|
  {
    if a == [] {
      assert a + b == b;
    } else {
      assert (a + b)[1..] == a[1..] + b;
      KeepAllowedConcat(a[1..], b);
    }
  }

  /** The first three steps work separately on the words of a text. */
  lemma ConservadoConcat(a: string, b: string)
    requires b != [] ==> IsSpace(b[0])
    ensures Conservado(a + b) == Conservado(a) + Conservado(b)
  {
    LowerConcat(a, b);
    RemoveUrlsConcat(Lower(a), Lower(b));
    KeepAllowedConcat(RemoveUrls(Lower(a)), RemoveUrls(Lower(b)));
  }

  /** Leading whitespace is trimmed from the first half alone when that
      half ends with something else. */
  lemma {:induction false} TrimStartConcat(a: string, b: string)
    requires a != [] && !IsSpace(a[|a| - 1])
    ensures TrimStart(a + b) == TrimStart(a) + b
    decreases |a|
  {
    if IsSpace(a[0]) {
      assert (a + b)[1..] == a[1..] + b;
      TrimStartConcat(a[1..], b);
    }
  }

  /** No whitespace run crosses the end of a text that ends with something
      else, so collapsing works separately on both sides. */
  lemma {:induction false} CollapseSpacesConcat(a: string, b: string)
    requires a != [] && !IsSpace(a[|a| - 1])
    ensures CollapseSpaces(a + b) == CollapseSpaces(a) + CollapseSpaces(b)
    decreases |a|, 1
  {
    var c, r := a[0], a[1..];
    assert a == [c] + r;
    if IsSpace(c) {
      CollapseSpacesConcatBlanco(c, r, b);
    } else {
      CollapseSpacesConcatLetra(c, r, b);
    }
  }

  lemma {:induction false} CollapseSpacesConcatBlanco(c: char, r: string, b: string)
    requires IsSpace(c) && r != [] && !IsSpace(r[|r| - 1])
    ensures CollapseSpaces([c] + r + b) == CollapseSpaces([c] + r) + CollapseSpaces(b)
    decreases |r| + 1, 0
  {
    ConsConcat(c, r, b);
    TrimStartConcat(r, b);
    var t := TrimStart(r);
    assert t != [] && t[|t| - 1] == r[|r| - 1];
    CollapseSpacesConcat(t, b);
    CollapseSpacesBlanco(c, r + b);
    CollapseSpacesBlanco(c, r);
    ConsConcat(' ', CollapseSpaces(t), CollapseSpaces(b));
  }

  lemma {:induction false} CollapseSpacesConcatLetra(c: char, r: string, b: string)
    requires !IsSpace(c) && (r != [] ==> !IsSpace(r[|r| - 1]))
    ensures CollapseSpaces([c] + r + b) == CollapseSpaces([c] + r) + CollapseSpaces(b)
    decreases |r| + 1, 0
  {
    ConsConcat(c, r, b);
    CollapseSpacesLetra(c, r + b);
    CollapseSpacesLetra(c, r);
    if r == [] {
      assert r + b == b;
    } else {
      CollapseSpacesConcat(r, b);
    }
    ConsConcat(c, CollapseSpaces(r), CollapseSpaces(b));
  }

  lemma ConsConcat(c: char, x: string, y: string)
    ensures [c] + x + y == [c] + (x + y)
  {
  }

  /** One step of collapsing at a whitespace character. */
  lemma CollapseSpacesBlanco(c: char, t: string)
    requires IsSpace(c)
    ensures CollapseSpaces([c] + t) == [' '] + CollapseSpaces(TrimStart(t))
  {
    assert ([c] + t)[1..] == t;
  }

  /** One step of collapsing at any other character. */
  lemma CollapseSpacesLetra(c: char, t: string)
    requires !IsSpace(c)
    ensures CollapseSpaces([c] + t) == [c] + CollapseSpaces(t)
  {
    assert ([c] + t)[1..] == t;
  }

  /** Only whitespace. */
  predicate Blancos(s: string) {
    forall i :: 0 <= i < |s| ==> IsSpace(s[i])
  }

  /** No whitespace. */
  predicate SinBlancos(s: string) {
    forall i :: 0 <= i < |s| ==> !IsSpace(s[i])
  }

  /** A word after a whitespace run: the run becomes one space and the
      word is kept. */
  lemma CollapseSpacesPalabra(sp: string, w: string)
    requires Blancos(sp) && SinBlancos(w)
    ensures CollapseSpaces(sp + w) == (if sp == [] then [] else [' ']) + w
  {
    SinBlancosSimples(w);
    CollapseSpacesNoOp(w);
    if sp == [] {
      assert sp + w == w;
    } else {
      CollapseSpacesRun(sp[0], sp[1..], w);
      assert sp == [sp[0]] + sp[1..];
    }
  }

  lemma SinBlancosSimples(w: string)
    requires SinBlancos(w)
    ensures EspaciosSimples(w)
  {
  }

  lemma CollapseSpacesRun(c: char, t: string, w: string)
    requires IsSpace(c) && Blancos(t) && SinBlancos(w)
    ensures CollapseSpaces([c] + t + w) == [' '] + CollapseSpaces(w)
  {
    ConsConcat(c, t, w);
    CollapseSpacesBlanco(c, t + w);
    TrimStartRun(t, w);
  }

  lemma {:induction false} TrimStartRun(sp: string, w: string)
    requires Blancos(sp)
    requires w != [] ==> !IsSpace(w[0])
    ensures TrimStart(sp + w) == w
    decreases |sp|
  {
    if sp == [] {
      assert sp + w == w;
    } else {
      assert (sp + w)[1..] == sp[1..] + w;
      TrimStartRun(sp[1..], w);
    }
  }

  /** Cleaning a text that splits, at whitespace, into parts whose kept
      characters are known: the parts are cleaned separately and their
      collapsed forms joined, when the first part's kept characters end
      with something other than whitespace. */
  lemma ConservadoUnido(a: string, b: string, ka: string, kb: string, ca: string, cb: string)
    requires b != [] ==> IsSpace(b[0])
    requires Conservado(a) == ka && Conservado(b) == kb
    requires ka != [] && !IsSpace(ka[|ka| - 1])
    requires CollapseSpaces(ka) == ca && CollapseSpaces(kb) == cb
    ensures Conservado(a + b) == ka + kb
    ensures CollapseSpaces(ka + kb) == ca + cb
  {
    ConservadoConcat(a, b);
    CollapseSpacesConcat(ka, kb);
  }

  /** A text whose collapsed kept characters have no whitespace at either
      end cleans to exactly those. */
  lemma LimpiarDeConservado(s: string, k: string, c: string)
    requires Conservado(s) == k && CollapseSpaces(k) == c
    requires c != [] ==> !IsSpace(c[0]) && !IsSpace(c[|c| - 1])
    ensures LimpiarTexto(s) == c
  {
    StripNoOp(c);
  }

  // ---------------------------------------------------------------- a second cleaning can differ

  /** A lowercase text that is one URL and nothing else cleans to nothing. */
  lemma LimpiarSoloUrl(s: string)
    requires Lower(s) == s && UrlAt(s, 0)
    requires forall j :: 0 <= j < |s| ==> !IsSpace(s[j])
    ensures LimpiarTexto(s) == []
  {
    LeadAtLeast(s, |s|);
    assert s[Lead(s)..] == [];
  }

  /** The cleaning of a lowercase text without URLs is the single-spaced
      text its admitted characters form, if that has no outer spaces. */
  lemma LimpiarSinUrl(s: string, a: string)
    requires Lower(s) == s && NoUrl(s) && KeepAllowed(s) == a
    requires EspaciosSimples(a) && (a != [] ==> !IsSpace(a[0]) && !IsSpace(a[|a| - 1]))
    ensures LimpiarTexto(s) == a
  {
    RemoveUrlsNoUrl(s);
    CollapseSpacesNoOp(a);
    StripNoOp(a);
  }

  lemma HttpxEsUrl()
    ensures Lower("httpx") == "httpx" && UrlAt("httpx", 0)
    ensures forall j :: 0 <= j < |"httpx"| ==> !IsSpace("httpx"[j])
  {
    LowerIsLower("httpx");
  }

  lemma HttpxEspaciado()
    ensures EspaciosSimples("httpx")
  {
  }

  lemma PuntoSinUrl()
    ensures Lower("h.ttpx") == "h.ttpx" && NoUrl("h.ttpx")
  {
    var s := "h.ttpx";
    LowerIsLower(s);
    forall i | 0 <= i < |s| ensures !UrlAt(s, i) {
      assert i + 5 <= |s| ==> i <= 1;
    }
  }

  lemma QuitaPunto()
    ensures KeepAllowed("h.ttpx") == "httpx"
  {
    var s := "h.ttpx";
    assert s[1..] == ".ttpx" && s[1..][1..] == "ttpx";
    assert !Permitido('.') && !IsSpace('.');
    assert KeepAllowed("ttpx") == "ttpx";
  }

  /** Cleaning is not idempotent: removing a dropped character can join
      the letters of "http" into a URL, which a second cleaning removes. */
  lemma LimpiarNoIdempotente()
    ensures LimpiarTexto("h.ttpx") == "httpx"
    ensures LimpiarTexto(LimpiarTexto("h.ttpx")) == []
  {
    PuntoSinUrl();
    QuitaPunto();
    HttpxEspaciado();
    LimpiarSinUrl("h.ttpx", "httpx");
    HttpxEsUrl();
    LimpiarSoloUrl("httpx");
  }
}
