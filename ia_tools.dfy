/** The smaller tools of routes/ia.py: the file check of the OCR endpoint, the
    language check and output of the translation endpoint, and the candidate
    tags of the tagging endpoint. The time they sleep, the random picks and
    the random confidences are left out. */
module IaTools {
  import opened Common
  import opened Seqs
  import opened Text
  import opened Modelos


  // --- OCR (`extraer_texto_documento`)

  const EXTENSIONES_PERMITIDAS: seq<string> := [".pdf", ".jpg", ".jpeg", ".png", ".tiff"]
  const ERROR_SIN_NOMBRE := HttpError(400, "No se proporcionó un nombre de archivo")
  const ERROR_EXTENSION :=
    HttpError(400, "Tipo de archivo no soportado. Extensiones permitidas: " + Join(", ", EXTENSIONES_PERMITIDAS))

  /** The lowercased extension of an uploaded file's name, or the 400 the
      endpoint raises when there is no name or the extension is not allowed. */
  function ExtensionOcr(nombre: Option<string>): (r: Result<string>)
    ensures r.Ok? ==> r.value in EXTENSIONES_PERMITIDAS && nombre.Some?
    ensures nombre.None? ==> r == Err(ERROR_SIN_NOMBRE)
    ensures nombre.Some? && Lower(SplitExt(nombre.value).1) !in EXTENSIONES_PERMITIDAS ==> r == Err(ERROR_EXTENSION)
  {
    match nombre
    case None => Err(ERROR_SIN_NOMBRE)
    case Some(n) =>
      var ext := Lower(SplitExt(n).1);
      if ext in EXTENSIONES_PERMITIDAS then Ok(ext) else Err(ERROR_EXTENSION)
  }

  /** The two wordings of the simulated extracted text, around the file name. */
  const PDF_ANTES := "Contenido extraído del PDF: "
  const PDF_DESPUES := ". Este documento parece contener información sobre..."
  const IMAGEN_ANTES := "Texto detectado en la imagen: "
  const IMAGEN_DESPUES := ". Se identifican varios párrafos y tablas..."

  function Antes(ext: string): string { if ext == ".pdf" then PDF_ANTES else IMAGEN_ANTES }
  function Despues(ext: string): string { if ext == ".pdf" then PDF_DESPUES else IMAGEN_DESPUES }

  /** The file name a simulated text was built around, if it has the wording
      for that extension. */
  function NombreEnTexto(texto: string, ext: string): Option<string>
  {
    var a, d := Antes(ext), Despues(ext);
    if |a| + |d| <= |texto| && texto[..|a|] == a && texto[|texto| - |d|..] == d
    then Some(texto[|a|..|texto| - |d|]) else None
  }

  /** The simulated extracted text: one wording for PDFs, one for images; the
      file name can be read back from it. */
  function TextoSimulado(nombre: string, ext: string): (r: string)
    ensures NombreEnTexto(r, ext) == Some(nombre)
  {
    var r := Antes(ext) + nombre + Despues(ext);
    assert r[..|Antes(ext)|] == Antes(ext);
    assert r[|r| - |Despues(ext)|..] == Despues(ext);
    assert r[|Antes(ext)|..|r| - |Despues(ext)|] == nombre;
    r
  }

  /** A PDF's text never reads like an image's, whatever the two names. */
  lemma TextoSimuladoDistingue(nombre: string, otro: string, ext: string)
    requires ext != ".pdf"
    ensures TextoSimulado(nombre, ".pdf") != TextoSimulado(otro, ext)
  {
    assert TextoSimulado(nombre, ".pdf")[0] == 'C';
    assert TextoSimulado(otro, ext)[0] == 'T';
  }

  /** A name is accepted exactly when its extension, in lower case, is allowed;
      the accepted value is that extension, which ends the name case-insensitively. */
  lemma ExtensionOcrAceptada(nombre: string)
    ensures ExtensionOcr(Some(nombre)).Ok? <==> Lower(SplitExt(nombre).1) in EXTENSIONES_PERMITIDAS
    ensures ExtensionOcr(Some(nombre)).Ok? ==>
              var e := ExtensionOcr(Some(nombre)).value;
              |e| <= |nombre| && Lower(nombre[|nombre| - |e|..]) == e
  {
    SplitExtShape(nombre);
    var (raiz, ext) := SplitExt(nombre);
    assert nombre[|nombre| - |ext|..] == ext;
  }

  /** The extension check ignores case. */
  lemma EjemploOcrMayusculas()
    ensures ExtensionOcr(Some("informe.PDF")) == Ok(".pdf")
  {
    var s := "informe.PDF";
    UltimoPunto(s, 7);
    assert s[0] != '.';
    assert SplitExt(s).1 == ".PDF";
    assert Lower(".PDF") == ".pdf";
  }

  /** Only the last extension counts. */
  lemma EjemploOcrDosExtensiones()
    ensures ExtensionOcr(Some("copia.tar.png")) == Ok(".png")
  {
    var s := "copia.tar.png";
    UltimoPunto(s, 9);
    assert s[0] != '.';
    assert SplitExt(s).1 == ".png";
    assert Lower(".png") == ".png";
  }

  /** A name that is only a dot and an extension has no extension. */
  lemma EjemploOcrArchivoOculto()
    ensures ExtensionOcr(Some(".png")) == Err(ERROR_EXTENSION)
  {
    UltimoPunto(".png", 0);
    assert SplitExt(".png").1 == [];
    assert Lower([]) == [];
  }

  lemma UltimoPunto(s: string, k: nat)
    requires k < |s| && s[k] == '.' && forall i :: k < i < |s| ==> s[i] != '.'
    ensures RFind(s, '.') == k
    ensures '/' !in s ==> RFind(s, '/') == -1
  {
  }

  // --- translation (`traducir_documento`)

  const IDIOMAS_VALIDOS: seq<string> := ["es", "en", "fr", "de", "it", "pt", "ru", "zh", "ja"]
  const ERROR_IDIOMA := HttpError(400, "Idioma no soportado. Idiomas válidos: " + Join(", ", IDIOMAS_VALIDOS))
  const NOTA_TRADUCCION := "Esta es una traducción automática y puede contener errores."

  datatype Traduccion = Traduccion(
    documentoId: Id, idiomaOrigen: string, idiomaDestino: string,
    tituloOriginal: string, tituloTraducido: string,
    descripcionOriginal: string, descripcionTraducida: string, nota: string)

  function PrefijoTitulo(destino: string): string { "[Traducido a " + destino + "] " }

  function PrefijoDescripcion(destino: string, origen: string): string
  {
    "[Traducido a " + destino + " desde " + origen + "] "
  }

  /** The simulated translation: 404 for a missing document, checked before
      the language; 400 for a language outside the list; otherwise the
      original texts with a prefix naming the languages. */
  function Traducir(docs: seq<Documento>, documentoId: Id, destino: string): Result<Traduccion>
  {
    match DocumentoPorId(docs, documentoId)
    case None => Err(DocumentoNoEncontrado(documentoId))
    case Some(d) =>
      if destino !in IDIOMAS_VALIDOS then Err(ERROR_IDIOMA)
      else Ok(Traduccion(documentoId, d.idioma, destino, d.titulo, PrefijoTitulo(destino) + d.titulo,
                         d.descripcion, PrefijoDescripcion(destino, d.idioma) + d.descripcion, NOTA_TRADUCCION))
  }

  /** A translation is produced exactly for an existing document and a listed
      language, a missing document being reported before a bad language; it
      describes that document in the requested language with the fixed note,
      and each translated text is its prefix naming the languages followed by
      the original. */
  lemma TraducirCorrecto(docs: seq<Documento>, documentoId: Id, destino: string)
    ensures Traducir(docs, documentoId, destino).Ok? <==>
              (exists i :: 0 <= i < |docs| && docs[i].id == documentoId) && destino in IDIOMAS_VALIDOS
    ensures (forall i :: 0 <= i < |docs| ==> docs[i].id != documentoId) ==>
              Traducir(docs, documentoId, destino) == Err(DocumentoNoEncontrado(documentoId))
    ensures (exists i :: 0 <= i < |docs| && docs[i].id == documentoId) && destino !in IDIOMAS_VALIDOS ==>
              Traducir(docs, documentoId, destino) == Err(ERROR_IDIOMA)
    ensures Traducir(docs, documentoId, destino).Ok? ==>
              var t := Traducir(docs, documentoId, destino).value;
              var d := DocumentoPorId(docs, documentoId).value;
              d in docs && d.id == documentoId && t.idiomaOrigen == d.idioma
              && t.documentoId == documentoId && t.idiomaDestino == destino && t.nota == NOTA_TRADUCCION
              && |PrefijoTitulo(destino)| <= |t.tituloTraducido|
              && t.tituloTraducido[..|PrefijoTitulo(destino)|] == PrefijoTitulo(destino)
              && |PrefijoDescripcion(destino, d.idioma)| <= |t.descripcionTraducida|
              && t.descripcionTraducida[..|PrefijoDescripcion(destino, d.idioma)|] == PrefijoDescripcion(destino, d.idioma)
              && t.tituloTraducido[|PrefijoTitulo(destino)|..] == t.tituloOriginal == d.titulo
              && t.descripcionTraducida[|PrefijoDescripcion(destino, d.idioma)|..] == t.descripcionOriginal == d.descripcion
  {
    if DocumentoPorId(docs, documentoId).Some? {
      var d := DocumentoPorId(docs, documentoId).value;
      var i :| 0 <= i < |docs| && docs[i] == d;
    }
  }

  // --- tagging (`etiquetar_documento`)

  /** `[p.lower() for p in posibles_etiquetas]`: each tag in lower case, so
      one that lowercasing leaves unchanged. */
  function Minusculas(s: seq<string>): (r: seq<string>)
    ensures |r| == |s| && forall i :: 0 <= i < |s| ==> r[i] == Lower(s[i])
    ensures forall i :: 0 <= i < |r| ==> Lower(r[i]) == r[i]
  {
    TodasMinusculas(s);
    seq(|s|, i requires 0 <= i < |s| => Lower(s[i]))
  }

  lemma TodasMinusculas(s: seq<string>)
    ensures forall i :: 0 <= i < |s| ==> Lower(Lower(s[i])) == Lower(s[i])
  {
    forall i | 0 <= i < |s| ensures Lower(Lower(s[i])) == Lower(s[i]) {
      LowerIdempotent(s[i]);
    }
  }

  /** Lowercasing the tags a second time changes nothing. */
  lemma MinusculasIdempotente(s: seq<string>)
    ensures Minusculas(Minusculas(s)) == Minusculas(s)
  {
    forall i | 0 <= i < |s| ensures Minusculas(Minusculas(s))[i] == Minusculas(s)[i] {
      LowerIdempotent(s[i]);
    }
  }

  function MasLargaQue(n: nat): string -> bool { (w: string) => |w| > n }

  /** The category, then the author, each when non-empty. */
  function Iniciales(d: Documento): seq<string>
  {
    (if d.categoria != [] then [d.categoria] else []) + (if d.autor != [] then [d.autor] else [])
  }

  /** The title words longer than 4 characters, lowercased, duplicates kept. */
  function DelTitulo(palabras: seq<string>): seq<string>
  {
    if palabras == [] then []
    else
      var previas := DelTitulo(palabras[..|palabras| - 1]);
      var w := palabras[|palabras| - 1];
      if |w| > 4 then previas + [Lower(w)] else previas
  }

  /** The description words longer than 5 characters, lowercased, each added
      only when the list so far has no tag equal to it ignoring case. */
  function AgregarDescripcion(acc: seq<string>, palabras: seq<string>): seq<string>
  {
    if palabras == [] then acc
    else
      var previas := AgregarDescripcion(acc, palabras[..|palabras| - 1]);
      var w := palabras[|palabras| - 1];
      if |w| > 5 && Lower(w) !in Minusculas(previas) then previas + [Lower(w)] else previas
  }

  function PosiblesEtiquetas(d: Documento): seq<string>
  {
    AgregarDescripcion(Iniciales(d) + DelTitulo(Words(d.titulo)), Words(d.descripcion))
  }

  /** `min(randint(3, 7), len(posibles_etiquetas))`: the random pick k is a
      parameter. */
  function NumEtiquetas(k: int, posibles: seq<string>): (n: nat)
    requires 3 <= k <= 7
    ensures n <= |posibles| && Min(3, |posibles|) <= n <= Min(7, |posibles|)
    ensures n == |posibles| || n == k
  {
    Min(k, |posibles|)
  }

  datatype Etiquetado = Etiquetado(posibles: seq<string>, numEtiquetas: nat)

  /** The candidate list and the number of tags to draw from it, or 404 for a
      missing document. The random sample itself, its confidences and the
      stored record are left out. */
  function Etiquetar(docs: seq<Documento>, documentoId: Id, k: int): Result<Etiquetado>
    requires 3 <= k <= 7
  {
    match DocumentoPorId(docs, documentoId)
    case None => Err(DocumentoNoEncontrado(documentoId))
    case Some(d) => Ok(Etiquetado(PosiblesEtiquetas(d), NumEtiquetas(k, PosiblesEtiquetas(d))))
  }

  /** The handler's steps that build `posibles_etiquetas`. */
  method EtiquetarDocumento(docs: seq<Documento>, documentoId: Id, k: int) returns (r: Result<Etiquetado>)
    requires 3 <= k <= 7
    ensures r == Etiquetar(docs, documentoId, k)
  {
    var encontrado := DocumentoPorId(docs, documentoId);
    if encontrado.None? {
      return Err(DocumentoNoEncontrado(documentoId));
    }
    var documento := encontrado.value;
    var posibles: seq<string> := [];
    if documento.categoria != [] {
      posibles := posibles + [documento.categoria];
    }
    if documento.autor != [] {
      posibles := posibles + [documento.autor];
    }
    assert posibles == Iniciales(documento);
    posibles := AgregarPalabrasTitulo(posibles, Words(documento.titulo));
    posibles := AgregarPalabrasDescripcion(posibles, Words(documento.descripcion));
    r := Ok(Etiquetado(posibles, NumEtiquetas(k, posibles)));
  }

  /** The loop over the title words. */
  method AgregarPalabrasTitulo(inicio: seq<string>, palabras: seq<string>) returns (posibles: seq<string>)
    ensures posibles == inicio + DelTitulo(palabras)
  {
    posibles := inicio;
    for i := 0 to |palabras|
      invariant posibles == inicio + DelTitulo(palabras[..i])
    {
      assert palabras[..i + 1][..i] == palabras[..i];
      if |palabras[i]| > 4 {
        posibles := posibles + [Lower(palabras[i])];
      }
    }
    assert palabras[..|palabras|] == palabras;
  }

  /** The loop over the description words. */
  method AgregarPalabrasDescripcion(inicio: seq<string>, palabras: seq<string>) returns (posibles: seq<string>)
    ensures posibles == AgregarDescripcion(inicio, palabras)
  {
    posibles := inicio;
    for i := 0 to |palabras|
      invariant posibles == AgregarDescripcion(inicio, palabras[..i])
    {
      assert palabras[..i + 1][..i] == palabras[..i];
      var palabra := palabras[i];
      if |palabra| > 5 && Lower(palabra) !in Minusculas(posibles) {
        posibles := posibles + [Lower(palabra)];
      }
    }
    assert palabras[..|palabras|] == palabras;
  }

  /** The title part is the lowercased title words longer than 4 characters,
      in order. */
  lemma {:induction false} DelTituloFiltro(palabras: seq<string>)
    ensures DelTitulo(palabras) == Minusculas(Filter(palabras, MasLargaQue(4)))
  {
    if palabras != [] {
      var init, w := palabras[..|palabras| - 1], palabras[|palabras| - 1];
      DelTituloFiltro(init);
      assert palabras == init + [w];
      FilterAppend(init, [w], MasLargaQue(4));
      assert Filter([w], MasLargaQue(4)) == if |w| > 4 then [w] else [];
    }
  }

  /** The description part extends the list built before it, and every tag
      it adds is a lowercased description word longer than 5 characters. */
  lemma {:induction false} AgregarDescripcionExtiende(acc: seq<string>, palabras: seq<string>)
    ensures var r := AgregarDescripcion(acc, palabras);
            |acc| <= |r| && r[..|acc|] == acc
    ensures var r := AgregarDescripcion(acc, palabras);
            forall i :: |acc| <= i < |r| ==> |r[i]| > 5 && Lower(r[i]) == r[i] && r[i] in Minusculas(palabras)
  {
    if palabras != [] {
      var init, w := palabras[..|palabras| - 1], palabras[|palabras| - 1];
      AgregarDescripcionExtiende(acc, init);
      var previas := AgregarDescripcion(acc, init);
      assert palabras == init + [w];
      forall i | |acc| <= i < |previas| ensures previas[i] in Minusculas(palabras) {
        var j :| 0 <= j < |init| && Minusculas(init)[j] == previas[i];
        assert Minusculas(palabras)[j] == previas[i];
      }
      if |w| > 5 && Lower(w) !in Minusculas(previas) {
        LowerIdempotent(w);
        assert Minusculas(palabras)[|palabras| - 1] == Lower(w);
      }
    }
  }

  /** No added tag equals, ignoring case, a tag before it. */
  lemma {:induction false} AgregarDescripcionSinRepetir(acc: seq<string>, palabras: seq<string>)
    ensures var r := AgregarDescripcion(acc, palabras);
            forall i, j :: 0 <= j < i < |r| && |acc| <= i ==> Lower(r[j]) != r[i]
  {
    if palabras != [] {
      var init, w := palabras[..|palabras| - 1], palabras[|palabras| - 1];
      AgregarDescripcionSinRepetir(acc, init);
      AgregarDescripcionExtiende(acc, init);
      var previas := AgregarDescripcion(acc, init);
      if |w| > 5 && Lower(w) !in Minusculas(previas) {
        var r := previas + [Lower(w)];
        forall i, j | 0 <= j < i < |r| && |acc| <= i ensures Lower(r[j]) != r[i] {
          if i == |previas| {
            assert Minusculas(previas)[j] == Lower(previas[j]);
          }
        }
      }
    }
  }

  /** Every description word longer than 5 characters ends up in the list,
      ignoring case. */
  lemma {:induction false} AgregarDescripcionCompleto(acc: seq<string>, palabras: seq<string>)
    ensures var r := AgregarDescripcion(acc, palabras);
            forall i :: 0 <= i < |palabras| && |palabras[i]| > 5 ==> Lower(palabras[i]) in Minusculas(r)
  {
    if palabras != [] {
      var n := |palabras| - 1;
      var init, w := palabras[..n], palabras[n];
      AgregarDescripcionCompleto(acc, init);
      var previas := AgregarDescripcion(acc, init);
      var nuevas := if |w| > 5 && Lower(w) !in Minusculas(previas) then [Lower(w)] else [];
      var r := previas + nuevas;
      assert AgregarDescripcion(acc, palabras) == r;
      MinusculasCrece(previas, nuevas);
      forall i | 0 <= i < |palabras| && |palabras[i]| > 5 ensures Lower(palabras[i]) in Minusculas(r) {
        if i < n {
          assert palabras[i] == init[i];
        } else if nuevas != [] {
          LowerIdempotent(w);
          assert Minusculas(r)[|previas|] == Lower(w);
        }
      }
    }
  }

  lemma MinusculasCrece(a: seq<string>, b: seq<string>)
    ensures forall x :: x in Minusculas(a) ==> x in Minusculas(a + b)
  {
    forall x | x in Minusculas(a) ensures x in Minusculas(a + b) {
      var j :| 0 <= j < |a| && Minusculas(a)[j] == x;
      assert Minusculas(a + b)[j] == x;
    }
  }

  /** The candidates start with the category and the author (when non-empty)
      and the lowercased long title words, then the new description words. */
  lemma PosiblesEtiquetasOrden(d: Documento)
    ensures var base := Iniciales(d) + Minusculas(Filter(Words(d.titulo), MasLargaQue(4)));
            var r := PosiblesEtiquetas(d);
            |base| <= |r| && r[..|base|] == base
            && (forall i, j :: 0 <= j < i < |r| && |base| <= i ==> Lower(r[j]) != r[i])
            && (forall i :: 0 <= i < |Words(d.descripcion)| && |Words(d.descripcion)[i]| > 5 ==>
                  Lower(Words(d.descripcion)[i]) in Minusculas(r))
  {
    DelTituloFiltro(Words(d.titulo));
    var acc := Iniciales(d) + DelTitulo(Words(d.titulo));
    AgregarDescripcionExtiende(acc, Words(d.descripcion));
    AgregarDescripcionSinRepetir(acc, Words(d.descripcion));
    AgregarDescripcionCompleto(acc, Words(d.descripcion));
  }
}
