/** The semantic-search handler of routes/ia.py (`busqueda_semantica`): score
    every document that has some text against the query, sort by score, keep
    the documents before the largest early gap in the scores (or above a
    manual threshold), and shape the survivors into results.

    The similarity of two texts comes from an external embedding service; here
    it is a function given by the caller. */
module Ranker {
  import opened Common
  import opened Seqs
  import opened Text
  import opened Modelos

  const UMBRAL_BRECHA: real := 0.05
  const UMBRAL_TOP: real := 0.7
  const UMBRAL_MINIMO: real := 0.65
  const LARGO_FRAGMENTO: nat := 100
  /** `find().to_list(1000)`: the handler only sees the first 1000 documents. */
  const MAX_DOCUMENTOS: nat := 1000

  const ERROR_CONSULTA_VACIA := HttpError(400, "La consulta de búsqueda no puede estar vacía")
  const ERROR_UMBRAL := HttpError(400, "El umbral de relevancia debe estar entre 0 y 1")
  const MENSAJE_SIN_DOCUMENTOS := "No se encontraron documentos para evaluar"
  const MENSAJE_SIN_RESULTADOS := "No se encontraron documentos que coincidan con su consulta. Intente con términos más generales."

  /** `gemini_service.semantic_similarity(query, text)`. */
  type Similitud = (string, string) -> real

  /** An entry of `documentos_con_relevancia`. */
  datatype Candidato = Candidato(doc: Documento, titulo: string, descripcion: string, relevancia: real)

  function Relevancia(c: Candidato): real { c.relevancia }

  function RelevanciaSobre(u: real): Candidato -> bool { (c: Candidato) => c.relevancia > u }

  /** Whether a document's stripped title or stripped description is non-empty. */
  predicate TieneTexto(d: Documento)
  {
    Strip(d.titulo) != [] || Strip(d.descripcion) != []
  }

  /** The candidate a document yields, or None when both its stripped title
      and its stripped description are empty. */
  function CandidatoDe(query: string, d: Documento, sim: Similitud): Option<Candidato>
  {
    var titulo, descripcion := Strip(d.titulo), Strip(d.descripcion);
    if titulo == [] && descripcion == [] then None
    else Some(Candidato(d, titulo, descripcion, sim(query, titulo + " " + descripcion)))
  }

  /** The candidate of each document, as a function. */
  function Puntuacion(query: string, sim: Similitud): Documento -> Option<Candidato>
  {
    (d: Documento) => CandidatoDe(query, d, sim)
  }

  /** The candidates of a list of documents, in the order of the documents. */
  function Candidatos(query: string, docs: seq<Documento>, sim: Similitud): seq<Candidato>
  {
    FilterMap(docs, Puntuacion(query, sim))
  }

  /** What the source promises of each entry of `documentos_con_relevancia`:
      its document has text, and it is scored on the stripped title, a space
      and the stripped description. */
  ghost predicate CandidatoValido(query: string, docs: seq<Documento>, sim: Similitud, c: Candidato)
  {
    c.doc in docs && (c.titulo != [] || c.descripcion != [])
    && c.titulo == Strip(c.doc.titulo) && c.descripcion == Strip(c.doc.descripcion)
    && c.relevancia == sim(query, c.titulo + " " + c.descripcion)
  }

  lemma {:induction false} CandidatosValidos(query: string, docs: seq<Documento>, sim: Similitud)
    ensures forall c :: c in Candidatos(query, docs, sim) ==> CandidatoValido(query, docs, sim, c)
  {
    if docs != [] {
      var init := docs[..|docs| - 1];
      CandidatosValidos(query, init, sim);
      var previos := Candidatos(query, init, sim);
      forall c | c in previos ensures CandidatoValido(query, docs, sim, c) {
        assert CandidatoValido(query, init, sim, c);
        assert c.doc in docs;
      }
    }
  }

  /** No candidates exactly when no document has a non-blank title or
      description. */
  lemma CandidatosVacios(query: string, docs: seq<Documento>, sim: Similitud)
    ensures Candidatos(query, docs, sim) == [] <==> forall i :: 0 <= i < |docs| ==> !TieneTexto(docs[i])
  {
    FilterMapVacio(docs, Puntuacion(query, sim));
    forall i | 0 <= i < |docs|
      ensures Puntuacion(query, sim)(docs[i]).None? <==> !TieneTexto(docs[i])
    {
    }
  }

  // --- the gap analysis

  /** An entry of `brechas`: index i and score[i-1] - score[i]. */
  datatype Brecha = Brecha(indice: nat, brecha: real)

  function ValorBrecha(b: Brecha): real { b.brecha }

  function HastaIndice(limite: int): Brecha -> bool { (b: Brecha) => b.indice <= limite }

  function Gap(c: seq<Candidato>, i: nat): real
    requires 1 <= i < |c|
  {
    c[i - 1].relevancia - c[i].relevancia
  }

  /** The gaps between neighbours, in index order; over candidates sorted
      highest first no gap is negative. */
  function Brechas(c: seq<Candidato>): (g: seq<Brecha>)
    ensures |c| > 0 ==> |g| == |c| - 1
    ensures |c| == 0 ==> g == []
    ensures forall j :: 0 <= j < |g| ==> g[j] == Brecha(j + 1, Gap(c, j + 1))
    ensures Descending(c, Relevancia) ==> forall j :: 0 <= j < |g| ==> g[j].brecha >= 0.0
  {
    if |c| < 2 then [] else seq(|c| - 1, j requires 0 <= j < |c| - 1 => Brecha(j + 1, Gap(c, j + 1)))
  }

  /** The sum of the gaps' values. */
  function SumaBrechas(g: seq<Brecha>): real
  {
    if g == [] then 0.0 else SumaBrechas(g[..|g| - 1]) + g[|g| - 1].brecha
  }

  /** The gaps lose nothing: the top score less the first k gaps is the k-th
      score. */
  lemma {:induction false} BrechasReconstruyen(c: seq<Candidato>, k: nat)
    requires k < |c|
    ensures c[0].relevancia - SumaBrechas(Brechas(c)[..k]) == c[k].relevancia
  {
    if k > 0 {
      BrechasReconstruyen(c, k - 1);
      var g := Brechas(c);
      assert g[..k][..k - 1] == g[..k - 1];
      assert g[k - 1] == Brecha(k, Gap(c, k));
    }
  }

  /** `min(5, max(2, int(n * 0.3)))`. The float product never changes the
      floor for the lengths where the result is below 5, so 3n/10 is exact. */
  function LimiteBusqueda(n: nat): (l: nat)
    ensures 2 <= l <= 5
  {
    Min(5, Max(2, (3 * n) / 10))
  }

  /** The index of the largest gap among 1..hi, the earliest one on ties. */
  function MejorBrecha(c: seq<Candidato>, hi: nat): (k: nat)
    requires 1 <= hi < |c|
    ensures 1 <= k <= hi
    ensures forall j :: 1 <= j <= hi ==> Gap(c, j) <= Gap(c, k)
    ensures forall j :: 1 <= j < k ==> Gap(c, j) < Gap(c, k)
  {
    if hi == 1 then 1
    else
      var b := MejorBrecha(c, hi - 1);
      if Gap(c, hi) > Gap(c, b) then hi else b
  }

  /** The last gap index the analysis looks at. */
  function UltimaBrecha(c: seq<Candidato>): (hi: nat)
    requires |c| >= 2
    ensures 1 <= hi < |c| && hi <= LimiteBusqueda(|c|)
    ensures hi == |c| - 1 || hi == LimiteBusqueda(|c|)
  {
    Min(LimiteBusqueda(|c|), |c| - 1)
  }

  /** The survivors of the cut-off, from the candidates in sorted order. */
  function Seleccion(c: seq<Candidato>, umbral: Option<real>): seq<Candidato>
  {
    match umbral
    case Some(u) => Filter(c, RelevanciaSobre(u))
    case None =>
      if |c| < 2 then c
      else
        var k := MejorBrecha(c, UltimaBrecha(c));
        if Gap(c, k) >= UMBRAL_BRECHA then c[..k]
        else if c[0].relevancia > UMBRAL_TOP then [c[0]]
        else Filter(c, RelevanciaSobre(UMBRAL_MINIMO))
  }

  // --- output shaping

  /** The first 100 characters and "..." for a longer description, the
      description itself otherwise. */
  function Fragmento(d: string): (f: string)
    ensures |d| <= LARGO_FRAGMENTO ==> f == d
    ensures |d| > LARGO_FRAGMENTO ==> |f| == LARGO_FRAGMENTO + 3 && f[..LARGO_FRAGMENTO] == d[..LARGO_FRAGMENTO]
                                      && f[LARGO_FRAGMENTO..] == "..."
  {
    if |d| > LARGO_FRAGMENTO then d[..LARGO_FRAGMENTO] + "..." else d
  }

  function AResultado(c: Candidato): ResultadoBusqueda
  {
    ResultadoBusqueda(c.doc.id, c.titulo, c.relevancia, Fragmento(c.descripcion))
  }

  function Resultados(c: seq<Candidato>): (r: seq<ResultadoBusqueda>)
    ensures |r| == |c| && forall i :: 0 <= i < |c| ==> r[i] == AResultado(c[i])
  {
    if c == [] then [] else Resultados(c[..|c| - 1]) + [AResultado(c[|c| - 1])]
  }

  /** What the handler computes: its response (or the error it raises), and
      the message it computes, which the response model then drops. */
  datatype Salida = Salida(respuesta: Result<RespuestaBusqueda>, mensaje: Option<string>)

  function Buscar(consulta: Consulta, umbral: Option<real>, docs: seq<Documento>, sim: Similitud): Salida
  {
    if Strip(consulta.query) == [] then Salida(Err(ERROR_CONSULTA_VACIA), None)
    else if umbral.Some? && (umbral.value < 0.0 || umbral.value > 1.0) then Salida(Err(ERROR_UMBRAL), None)
    else
      var candidatos := Candidatos(consulta.query, Take(docs, MAX_DOCUMENTOS), sim);
      if candidatos == [] then Salida(Ok(RespuestaBusqueda([], 0)), Some(MENSAJE_SIN_DOCUMENTOS))
      else
        var elegidos := Seleccion(SortDesc(candidatos, Relevancia), umbral);
        var resultados := PySlice(Resultados(elegidos), 0, consulta.numResultados);
        Salida(Ok(RespuestaBusqueda(resultados, |resultados|)),
               if resultados == [] then Some(MENSAJE_SIN_RESULTADOS) else None)
  }

  /** The handler, step by step as the source runs it. */
  method BusquedaSemantica(consulta: Consulta, umbral: Option<real>, docs: seq<Documento>, sim: Similitud)
    returns (respuesta: Result<RespuestaBusqueda>, mensaje: Option<string>)
    ensures respuesta == Buscar(consulta, umbral, docs, sim).respuesta
    ensures mensaje == Buscar(consulta, umbral, docs, sim).mensaje
  {
    if Strip(consulta.query) == [] {
      return Err(ERROR_CONSULTA_VACIA), None;
    }
    if umbral.Some? && (umbral.value < 0.0 || umbral.value > 1.0) {
      return Err(ERROR_UMBRAL), None;
    }
    var todosDocumentos := Take(docs, MAX_DOCUMENTOS);
    var conRelevancia := Puntuar(consulta.query, todosDocumentos, sim);
    if conRelevancia == [] {
      return Ok(RespuestaBusqueda([], 0)), Some(MENSAJE_SIN_DOCUMENTOS);
    }
    conRelevancia := SortDesc(conRelevancia, Relevancia);
    conRelevancia := Seleccionar(conRelevancia, umbral);
    var resultados := FormarResultados(conRelevancia);
    resultados := PySlice(resultados, 0, consulta.numResultados);
    mensaje := None;
    if |resultados| == 0 {
      mensaje := Some(MENSAJE_SIN_RESULTADOS);
    }
    respuesta := Ok(RespuestaBusqueda(resultados, |resultados|));
  }

  /** The loop over the documents that builds `documentos_con_relevancia`. */
  method Puntuar(query: string, docs: seq<Documento>, sim: Similitud) returns (conRelevancia: seq<Candidato>)
    ensures conRelevancia == Candidatos(query, docs, sim)
  {
    conRelevancia := [];
    for i := 0 to |docs|
      invariant conRelevancia == Candidatos(query, docs[..i], sim)
    {
      FilterMapPaso(docs, Puntuacion(query, sim), i);
      var titulo := Strip(docs[i].titulo);
      var descripcion := Strip(docs[i].descripcion);
      if titulo != [] || descripcion != [] {
        var relevancia := sim(query, titulo + " " + descripcion);
        conRelevancia := conRelevancia + [Candidato(docs[i], titulo, descripcion, relevancia)];
      }
      assert conRelevancia == FilterMap(docs[..i + 1], Puntuacion(query, sim));
    }
    assert docs[..|docs|] == docs;
  }

  /** The cut-off on the sorted candidates: the manual threshold, or the loop
      that builds the gaps, the library sort of the gaps, the comprehension
      that keeps the early ones and the three-way choice on the first. */
  method Seleccionar(ordenados: seq<Candidato>, umbral: Option<real>) returns (conRelevancia: seq<Candidato>)
    ensures conRelevancia == Seleccion(ordenados, umbral)
  {
    conRelevancia := ordenados;
    if umbral.Some? {
      conRelevancia := Filter(conRelevancia, RelevanciaSobre(umbral.value));
      return;
    }
    if |conRelevancia| < 2 {
      return;
    }
    var brechas: seq<Brecha> := [];
    for i := 1 to |conRelevancia|
      invariant brechas == Brechas(conRelevancia)[..i - 1]
    {
      var brecha := conRelevancia[i - 1].relevancia - conRelevancia[i].relevancia;
      brechas := brechas + [Brecha(i, brecha)];
    }
    assert brechas == Brechas(conRelevancia);
    brechas := SortDesc(brechas, ValorBrecha);
    var limite := LimiteBusqueda(|conRelevancia|);
    var relevantes := Filter(brechas, HastaIndice(limite));
    PrimeraBrechaRelevante(ordenados);
    var mayor := relevantes[0];
    if mayor.brecha >= UMBRAL_BRECHA {
      conRelevancia := conRelevancia[..mayor.indice];
    } else if conRelevancia[0].relevancia > UMBRAL_TOP {
      conRelevancia := [conRelevancia[0]];
    } else {
      conRelevancia := Filter(conRelevancia, RelevanciaSobre(UMBRAL_MINIMO));
    }
  }

  /** The loop that shapes the survivors into results. */
  method FormarResultados(c: seq<Candidato>) returns (resultados: seq<ResultadoBusqueda>)
    ensures resultados == Resultados(c)
  {
    resultados := [];
    for i := 0 to |c|
      invariant resultados == Resultados(c[..i])
    {
      assert c[..i + 1][..i] == c[..i];
      resultados := resultados + [AResultado(c[i])];
    }
    assert c[..|c|] == c;
  }

  /** Sorting the gaps in descending order (stably), keeping those with index
      up to the limit and taking the first one finds the earliest largest gap
      among indices 1..min(limit, n-1). */
  lemma PrimeraBrechaRelevante(c: seq<Candidato>)
    requires |c| >= 2
    ensures var X := Filter(SortDesc(Brechas(c), ValorBrecha), HastaIndice(LimiteBusqueda(|c|)));
            X != [] && X[0] == Brecha(MejorBrecha(c, UltimaBrecha(c)), Gap(c, MejorBrecha(c, UltimaBrecha(c))))
  {
    var g := Brechas(c);
    var P := HastaIndice(LimiteBusqueda(|c|));
    var X := Filter(SortDesc(g, ValorBrecha), P);
    var k := MejorBrecha(c, UltimaBrecha(c));
    var K := HasKey(ValorBrecha, Gap(c, k));
    PrimeraBrechaMaxima(c);
    FilterFirst(X, K, 0);
    FiltrarBrechasOrdenadas(g, P, K);
    PrimeraBrechaTemprana(c);
  }

  /** The first kept gap of the sorted gaps has the largest value among
      the examined ones. */
  lemma PrimeraBrechaMaxima(c: seq<Candidato>)
    requires |c| >= 2
    ensures var X := Filter(SortDesc(Brechas(c), ValorBrecha), HastaIndice(LimiteBusqueda(|c|)));
            X != [] && ValorBrecha(X[0]) == Gap(c, MejorBrecha(c, UltimaBrecha(c)))
  {
    var g := Brechas(c);
    var S := SortDesc(g, ValorBrecha);
    var P := HastaIndice(LimiteBusqueda(|c|));
    var X := Filter(S, P);
    var k := MejorBrecha(c, UltimaBrecha(c));
    var m := Gap(c, k);
    assert g[k - 1] in X by {
      SortDescMembers(g, ValorBrecha);
      FilterMembers(S, P);
      assert g[k - 1] == Brecha(k, m);
      assert P(g[k - 1]);
      assert g[k - 1] in S;
    }
    var t :| 0 <= t < |X| && X[t] == g[k - 1];
    assert ValorBrecha(X[0]) <= m by {
      SortDescMembers(g, ValorBrecha);
      FilterMembers(S, P);
      assert X[0] in g;
      var j :| 0 <= j < |g| && g[j] == X[0];
      assert P(X[0]);
      assert ValorBrecha(X[0]) == Gap(c, j + 1);
    }
    assert ValorBrecha(X[0]) >= m by {
      SortDescDescending(g, ValorBrecha);
      FilterDescending(S, P, ValorBrecha);
      assert t == 0 || ValorBrecha(X[0]) >= ValorBrecha(X[t]);
    }
  }

  /** Keeping the gaps of one value among the kept sorted gaps is keeping,
      in index order, the gaps that have that value and are kept. */
  lemma FiltrarBrechasOrdenadas(g: seq<Brecha>, P: Brecha -> bool, K: Brecha -> bool)
    requires exists v :: K == HasKey(ValorBrecha, v)
    ensures Filter(Filter(SortDesc(g, ValorBrecha), P), K) == Filter(g, And(K, P))
  {
    var v :| K == HasKey(ValorBrecha, v);
    var S := SortDesc(g, ValorBrecha);
    FilterCommutes(S, P, K);
    SortDescStable(g, ValorBrecha, v);
    FilterFilter(g, K, P);
  }

  /** Among the examined gaps of the largest value, the earliest is the one
      MejorBrecha picks. */
  lemma PrimeraBrechaTemprana(c: seq<Candidato>)
    requires |c| >= 2
    ensures var k := MejorBrecha(c, UltimaBrecha(c));
            var Q := And(HasKey(ValorBrecha, Gap(c, k)), HastaIndice(LimiteBusqueda(|c|)));
            Filter(Brechas(c), Q) != [] && Filter(Brechas(c), Q)[0] == Brecha(k, Gap(c, k))
  {
    var g := Brechas(c);
    var k := MejorBrecha(c, UltimaBrecha(c));
    var Q := And(HasKey(ValorBrecha, Gap(c, k)), HastaIndice(LimiteBusqueda(|c|)));
    assert g[k - 1] == Brecha(k, Gap(c, k));
    forall i | 0 <= i < k - 1 ensures !Q(g[i]) {
      assert g[i] == Brecha(i + 1, Gap(c, i + 1));
      assert Gap(c, i + 1) < Gap(c, k);
      assert !HasKey(ValorBrecha, Gap(c, k))(g[i]);
    }
    assert k <= UltimaBrecha(c) <= LimiteBusqueda(|c|);
    assert HastaIndice(LimiteBusqueda(|c|))(g[k - 1]);
    assert Q(g[k - 1]);
    FilterFirst(g, Q, k - 1);
  }

  // --- what the handler promises

  /** The cut-off keeps candidates in their order, keeps a sorted list
      sorted, and with a manual threshold keeps exactly the candidates above
      it. */
  lemma SeleccionSubsecuencia(c: seq<Candidato>, umbral: Option<real>)
    ensures forall i :: 0 <= i < |Seleccion(c, umbral)| ==> Seleccion(c, umbral)[i] in c
    ensures Descending(c, Relevancia) ==> Descending(Seleccion(c, umbral), Relevancia)
    ensures umbral.Some? ==> forall i :: 0 <= i < |Seleccion(c, umbral)| ==> Seleccion(c, umbral)[i].relevancia > umbral.value
    ensures umbral.Some? ==> forall i :: 0 <= i < |c| && c[i].relevancia > umbral.value ==> c[i] in Seleccion(c, umbral)
  {
    match umbral
    case Some(u) => SeleccionManual(c, u);
    case None => SeleccionAutomatica(c);
  }

  /** With a manual threshold the survivors are the filter of the candidates. */
  lemma SeleccionManual(c: seq<Candidato>, u: real)
    ensures var e := Seleccion(c, Some(u));
            e == Filter(c, RelevanciaSobre(u))
            && (forall i :: 0 <= i < |e| ==> e[i] in c && e[i].relevancia > u)
            && (forall i :: 0 <= i < |c| && c[i].relevancia > u ==> c[i] in e)
    ensures Descending(c, Relevancia) ==> Descending(Seleccion(c, Some(u)), Relevancia)
  {
    var e := Filter(c, RelevanciaSobre(u));
    FilterMembers(c, RelevanciaSobre(u));
    forall i | 0 <= i < |c| && c[i].relevancia > u ensures c[i] in e {
      assert RelevanciaSobre(u)(c[i]);
    }
    if Descending(c, Relevancia) {
      FilterDescending(c, RelevanciaSobre(u), Relevancia);
    }
  }

  /** Without one the survivors are a prefix, the top candidate alone or a filter. */
  lemma SeleccionAutomatica(c: seq<Candidato>)
    ensures forall i :: 0 <= i < |Seleccion(c, None)| ==> Seleccion(c, None)[i] in c
    ensures Descending(c, Relevancia) ==> Descending(Seleccion(c, None), Relevancia)
  {
    if |c| >= 2 {
      var k := MejorBrecha(c, UltimaBrecha(c));
      if Gap(c, k) < UMBRAL_BRECHA && c[0].relevancia <= UMBRAL_TOP {
        FilterMembers(c, RelevanciaSobre(UMBRAL_MINIMO));
        if Descending(c, Relevancia) {
          FilterDescending(c, RelevanciaSobre(UMBRAL_MINIMO), Relevancia);
        }
      }
    }
  }

  /** Without a manual threshold, one candidate (no gaps) is kept as it is. */
  lemma SeleccionSinBrechas(c: seq<Candidato>)
    requires |c| < 2
    ensures Seleccion(c, None) == c
  {
  }

  /** Without a manual threshold, when the earliest largest gap among indices
      1..min(limit, n-1) is k and it is at least 0.05, the candidates before
      it are kept. */
  lemma {:induction false} SeleccionCorte(c: seq<Candidato>, k: nat)
    requires |c| >= 2 && 1 <= k <= UltimaBrecha(c)
    requires forall j :: 1 <= j <= UltimaBrecha(c) ==> Gap(c, j) <= Gap(c, k)
    requires forall j :: 1 <= j < k ==> Gap(c, j) < Gap(c, k)
    requires Gap(c, k) >= UMBRAL_BRECHA
    ensures Seleccion(c, None) == c[..k]
  {
    MejorBrechaUnica(c, UltimaBrecha(c), k);
  }

  /** The earliest largest gap is unique. */
  lemma MejorBrechaUnica(c: seq<Candidato>, hi: nat, k: nat)
    requires 1 <= hi < |c| && 1 <= k <= hi
    requires forall j :: 1 <= j <= hi ==> Gap(c, j) <= Gap(c, k)
    requires forall j :: 1 <= j < k ==> Gap(c, j) < Gap(c, k)
    ensures MejorBrecha(c, hi) == k
  {
  }

  /** Without a manual threshold, when every examined gap is below 0.05, the
      top candidate alone is kept if its score is above 0.7, and otherwise the
      candidates scoring above 0.65. */
  lemma SeleccionSinCorte(c: seq<Candidato>)
    requires |c| >= 2
    requires forall j :: 1 <= j <= UltimaBrecha(c) ==> Gap(c, j) < UMBRAL_BRECHA
    ensures c[0].relevancia > UMBRAL_TOP ==> Seleccion(c, None) == [c[0]]
    ensures c[0].relevancia <= UMBRAL_TOP ==> Seleccion(c, None) == Filter(c, RelevanciaSobre(UMBRAL_MINIMO))
  {
    var k := MejorBrecha(c, UltimaBrecha(c));
    assert Gap(c, k) < UMBRAL_BRECHA;
  }

  /** Scores 0.9, 0.85, 0.5, 0.4, 0.3: the limit is 2, the gap 0.35 at index
      2 beats 0.05 at index 1, and the first two documents are kept. */
  lemma EjemploCorte(c: seq<Candidato>)
    requires |c| == 5
    requires c[0].relevancia == 0.9 && c[1].relevancia == 0.85 && c[2].relevancia == 0.5
    requires c[3].relevancia == 0.4 && c[4].relevancia == 0.3
    ensures Seleccion(c, None) == c[..2]
  {
    assert UltimaBrecha(c) == 2;
    SeleccionCorte(c, 2);
  }

  /** Scores 0.72, 0.70, 0.69: no gap reaches 0.05 and the top score is above
      0.7, so only the top document is kept. */
  lemma EjemploTop(c: seq<Candidato>)
    requires |c| == 3
    requires c[0].relevancia == 0.72 && c[1].relevancia == 0.70 && c[2].relevancia == 0.69
    ensures Seleccion(c, None) == [c[0]]
  {
    assert UltimaBrecha(c) == 2;
    SeleccionSinCorte(c);
  }

  /** The candidates are sorted by score, highest first, as a permutation
      that keeps documents of equal score in their original order. */
  lemma CandidatosOrdenados(c: seq<Candidato>, v: real)
    ensures Descending(SortDesc(c, Relevancia), Relevancia)
    ensures multiset(SortDesc(c, Relevancia)) == multiset(c)
    ensures Filter(SortDesc(c, Relevancia), HasKey(Relevancia, v)) == Filter(c, HasKey(Relevancia, v))
  {
    SortDescDescending(c, Relevancia);
    SortDescMultiset(c, Relevancia);
    SortDescStable(c, Relevancia, v);
  }

  /** A valid query is answered, and an invalid one rejected with the
      source's 400 errors, the empty query checked first. */
  lemma BuscarValidacion(consulta: Consulta, umbral: Option<real>, docs: seq<Documento>, sim: Similitud)
    ensures Buscar(consulta, umbral, docs, sim).respuesta.Err? <==>
              Strip(consulta.query) == [] || (umbral.Some? && (umbral.value < 0.0 || umbral.value > 1.0))
    ensures Strip(consulta.query) == [] ==> Buscar(consulta, umbral, docs, sim).respuesta == Err(ERROR_CONSULTA_VACIA)
    ensures Strip(consulta.query) != [] && umbral.Some? && (umbral.value < 0.0 || umbral.value > 1.0) ==>
              Buscar(consulta, umbral, docs, sim).respuesta == Err(ERROR_UMBRAL)
  {
  }

  /** A valid query gets the "nothing to evaluate" answer exactly when none of
      the first 1000 documents has a non-blank title or description. */
  lemma BuscarSinDocumentos(consulta: Consulta, umbral: Option<real>, docs: seq<Documento>, sim: Similitud)
    requires Strip(consulta.query) != [] && (umbral.Some? ==> 0.0 <= umbral.value <= 1.0)
    ensures var s := Buscar(consulta, umbral, docs, sim);
            s.mensaje == Some(MENSAJE_SIN_DOCUMENTOS) <==>
              forall i :: 0 <= i < |Take(docs, MAX_DOCUMENTOS)| ==> !TieneTexto(Take(docs, MAX_DOCUMENTOS)[i])
    ensures var s := Buscar(consulta, umbral, docs, sim);
            s.mensaje == Some(MENSAJE_SIN_DOCUMENTOS) ==> s.respuesta == Ok(RespuestaBusqueda([], 0))
  {
    CandidatosVacios(consulta.query, Take(docs, MAX_DOCUMENTOS), sim);
  }

  /** What a valid query gets back: at most the requested number of results,
      highest score first, each one a document among the first 1000 with its
      stripped title, its score on the stripped texts and its fragment; above
      the manual threshold when one is given; the total is the number of
      results, and a message comes exactly when the list is empty. */
  lemma BuscarResultados(consulta: Consulta, umbral: Option<real>, docs: seq<Documento>, sim: Similitud)
    requires Strip(consulta.query) != [] && (umbral.Some? ==> 0.0 <= umbral.value <= 1.0)
    ensures var s := Buscar(consulta, umbral, docs, sim);
            s.respuesta.Ok? && s.respuesta.value.totalEncontrados == |s.respuesta.value.resultados|
            && (s.mensaje.Some? <==> s.respuesta.value.resultados == [])
    ensures var r := Buscar(consulta, umbral, docs, sim).respuesta.value.resultados;
            ResultadosCorrectos(consulta, umbral, Take(docs, MAX_DOCUMENTOS), sim, r)
  {
    var cands := Candidatos(consulta.query, Take(docs, MAX_DOCUMENTOS), sim);
    if cands != [] {
      Elegidos(consulta, umbral, Take(docs, MAX_DOCUMENTOS), sim);
    }
  }

  /** The promises about the results of a valid query over some documents. */
  ghost predicate ResultadosCorrectos(consulta: Consulta, umbral: Option<real>, vistos: seq<Documento>,
                                      sim: Similitud, r: seq<ResultadoBusqueda>)
  {
    (consulta.numResultados >= 0 ==> |r| <= consulta.numResultados)
    && PorRelevancia(r) && SobreUmbral(umbral, r) && Procedentes(consulta.query, vistos, sim, r)
  }

  /** Highest relevance first. */
  ghost predicate PorRelevancia(r: seq<ResultadoBusqueda>)
  {
    forall i, j :: 0 <= i < j < |r| ==> r[i].relevancia >= r[j].relevancia
  }

  /** Above the manual threshold, when there is one. */
  ghost predicate SobreUmbral(umbral: Option<real>, r: seq<ResultadoBusqueda>)
  {
    umbral.Some? ==> forall i :: 0 <= i < |r| ==> r[i].relevancia > umbral.value
  }

  /** Each result describes one of the documents looked at. */
  ghost predicate Procedentes(query: string, vistos: seq<Documento>, sim: Similitud, r: seq<ResultadoBusqueda>)
  {
    forall i :: 0 <= i < |r| ==> exists d :: d in vistos && EsResultadoDe(query, sim, d, r[i])
  }

  lemma Elegidos(consulta: Consulta, umbral: Option<real>, vistos: seq<Documento>, sim: Similitud)
    ensures var S := SortDesc(Candidatos(consulta.query, vistos, sim), Relevancia);
            ResultadosCorrectos(consulta, umbral, vistos, sim,
                                PySlice(Resultados(Seleccion(S, umbral)), 0, consulta.numResultados))
  {
    var q := consulta.query;
    var cands := Candidatos(q, vistos, sim);
    var S := SortDesc(cands, Relevancia);
    var E := Seleccion(S, umbral);
    SortDescDescending(cands, Relevancia);
    SortDescMembers(cands, Relevancia);
    SeleccionSubsecuencia(S, umbral);
    CandidatosValidos(q, vistos, sim);
    forall i | 0 <= i < |E| ensures CandidatoValido(q, vistos, sim, E[i]) {
      assert E[i] in S;
    }
    ResultadosDeElegidos(consulta, umbral, vistos, sim, E);
  }

  lemma ResultadosDeElegidos(consulta: Consulta, umbral: Option<real>, vistos: seq<Documento>,
                             sim: Similitud, E: seq<Candidato>)
    requires forall i :: 0 <= i < |E| ==> CandidatoValido(consulta.query, vistos, sim, E[i])
    requires Descending(E, Relevancia)
    requires umbral.Some? ==> forall i :: 0 <= i < |E| ==> E[i].relevancia > umbral.value
    ensures ResultadosCorrectos(consulta, umbral, vistos, sim, PySlice(Resultados(E), 0, consulta.numResultados))
  {
    var r := PySlice(Resultados(E), 0, consulta.numResultados);
    PrimerosResultados(E, consulta.numResultados);
    ResultadosProcedencia(consulta.query, vistos, sim, E, r);
    ResultadosRelevancia(umbral, E, r);
  }

  /** `resultados[:num_resultados]`: at most that many, each the result of the
      candidate at its place. */
  lemma PrimerosResultados(E: seq<Candidato>, n: int)
    ensures var r := PySlice(Resultados(E), 0, n);
            |r| <= |E| && (n >= 0 ==> |r| <= n) && forall i :: 0 <= i < |r| ==> r[i] == Resultados(E)[i]
  {
    PySlicePrefijo(Resultados(E), n);
  }

  /** Each of the first results comes from the candidate at its place. */
  lemma ResultadosProcedencia(query: string, vistos: seq<Documento>, sim: Similitud,
                              E: seq<Candidato>, r: seq<ResultadoBusqueda>)
    requires forall i :: 0 <= i < |E| ==> CandidatoValido(query, vistos, sim, E[i])
    requires |r| <= |E| && forall i :: 0 <= i < |r| ==> r[i] == Resultados(E)[i]
    ensures Procedentes(query, vistos, sim, r)
  {
    forall i | 0 <= i < |r| ensures exists d :: d in vistos && EsResultadoDe(query, sim, d, r[i]) {
      assert r[i] == AResultado(E[i]);
      assert EsResultadoDe(query, sim, E[i].doc, r[i]);
    }
  }

  /** The first results keep the order and the threshold of the candidates. */
  lemma ResultadosRelevancia(umbral: Option<real>, E: seq<Candidato>, r: seq<ResultadoBusqueda>)
    requires Descending(E, Relevancia)
    requires umbral.Some? ==> forall i :: 0 <= i < |E| ==> E[i].relevancia > umbral.value
    requires |r| <= |E| && forall i :: 0 <= i < |r| ==> r[i] == Resultados(E)[i]
    ensures PorRelevancia(r) && SobreUmbral(umbral, r)
  {
    forall i | 0 <= i < |r| ensures r[i].relevancia == E[i].relevancia {
      assert r[i] == AResultado(E[i]);
    }
    forall i, j | 0 <= i < j < |r| ensures r[i].relevancia >= r[j].relevancia {
      assert Relevancia(E[i]) >= Relevancia(E[j]);
    }
  }

  /** A result describes document d for the query. */
  ghost predicate EsResultadoDe(query: string, sim: Similitud, d: Documento, r: ResultadoBusqueda)
  {
    r.documentoId == d.id && r.titulo == Strip(d.titulo)
    && r.relevancia == sim(query, Strip(d.titulo) + " " + Strip(d.descripcion))
    && r.fragmento == Fragmento(Strip(d.descripcion))
  }
}
