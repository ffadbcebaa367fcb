/** routes/documentos.py: the documents collection and its handlers. The
    saved image's URL and the fresh id (`str(ObjectId())`) are parameters. */
module Documentos {
  import opened Common
  import opened Seqs
  import opened Modelos

  const MAX_LISTADO: nat := 1000

  function ErrorPorId(id: Id): HttpError { HttpError(404, "documento con id " + id + " no encontrado") }
  function ErrorPorTitulo(titulo: string): HttpError { HttpError(404, "documento con " + titulo + " no encontrado") }
  function ErrorActualizar(id: Id): HttpError { HttpError(404, "documento con id: " + id + " no encontrado") }

  ghost predicate IdsUnicos(ds: seq<Documento>)
  {
    forall i, j :: 0 <= i < j < |ds| ==> ds[i].id != ds[j].id
  }

  predicate IdLibre(ds: seq<Documento>, id: Id)
  {
    forall i :: 0 <= i < |ds| ==> ds[i].id != id
  }

  /** The position of the first document with that id, or -1. */
  function Indice(ds: seq<Documento>, id: Id): (k: int)
    ensures -1 <= k < |ds|
    ensures k >= 0 ==> ds[k].id == id && forall j :: 0 <= j < k ==> ds[j].id != id
    ensures k == -1 <==> IdLibre(ds, id)
  {
    if ds == [] then -1
    else if ds[|ds| - 1].id == id && Indice(ds[..|ds| - 1], id) == -1 then |ds| - 1
    else Indice(ds[..|ds| - 1], id)
  }

  /** `obtener_documentos`: the first 1000 documents. */
  function ObtenerDocumentos(ds: seq<Documento>): (r: seq<Documento>)
    ensures |r| == Min(MAX_LISTADO, |ds|) && r == ds[..|r|]
  {
    Take(ds, MAX_LISTADO)
  }

  /** `obtener_documento_por_id`. */
  function ObtenerPorId(ds: seq<Documento>, id: Id): (r: Result<Documento>)
    ensures r.Ok? ==> r.value in ds && r.value.id == id
    ensures r.Err? <==> IdLibre(ds, id)
    ensures r.Err? ==> r == Err(ErrorPorId(id))
  {
    match DocumentoPorId(ds, id)
    case None => Err(ErrorPorId(id))
    case Some(d) => Ok(d)
  }

  /** `obtener_documento_por_titulo`, the first document whose title is
      exactly the given string. The route binds that string to the bearer
      token (`titulo: str = Depends(esquema_oauth)`), so the title searched is
      the caller's token, whatever the path says. */
  function ObtenerPorTitulo(ds: seq<Documento>, token: string): (r: Result<Documento>)
    ensures r.Ok? ==> r.value in ds && r.value.titulo == token
    ensures r.Err? <==> forall i :: 0 <= i < |ds| ==> ds[i].titulo != token
    ensures r.Err? ==> r == Err(ErrorPorTitulo(token))
  {
    if ds == [] then Err(ErrorPorTitulo(token))
    else if ds[0].titulo == token then Ok(ds[0])
    else
      var r := ObtenerPorTitulo(ds[1..], token);
      assert r.Ok? ==> r.value in ds;
      r
  }

  /** The form fields of `guardar_documento`. */
  datatype Formulario = Formulario(
    tipoDocumento: string, autor: string, titulo: string, descripcion: string, categoria: string,
    stock: int, precio: int, editorial: string, idioma: string, paginas: int)

  /** The record `guardar_documento` inserts. */
  function NuevoDocumento(f: Formulario, id: Id, urlImagen: string): Documento
  {
    Documento(id, f.tipoDocumento, f.autor, f.titulo, f.descripcion, urlImagen, f.categoria,
              f.stock, f.precio, f.editorial, f.idioma, f.paginas)
  }

  /** A created document is found again by its id and holds exactly the
      form fields and the image URL. */
  lemma GuardarDocumentoCorrecto(ds: seq<Documento>, f: Formulario, id: Id, urlImagen: string)
    requires IdLibre(ds, id)
    ensures var d := NuevoDocumento(f, id, urlImagen);
            ObtenerPorId(ds + [d], id) == Ok(d)
            && d.tipoDocumento == f.tipoDocumento && d.autor == f.autor && d.titulo == f.titulo
            && d.descripcion == f.descripcion && d.imagen == urlImagen && d.categoria == f.categoria
            && d.stock == f.stock && d.precio == f.precio && d.editorial == f.editorial
            && d.idioma == f.idioma && d.paginas == f.paginas
  {
    var d := NuevoDocumento(f, id, urlImagen);
    DocumentoPorIdAlFinal(ds, d);
  }

  lemma {:induction false} DocumentoPorIdAlFinal(ds: seq<Documento>, d: Documento)
    requires IdLibre(ds, d.id)
    ensures DocumentoPorId(ds + [d], d.id) == Some(d)
  {
    if ds != [] {
      assert (ds + [d])[1..] == ds[1..] + [d];
      DocumentoPorIdAlFinal(ds[1..], d);
    }
  }

  // --- partial update (`actualizar_documento`)

  predicate PatchVacio(p: ActualizarDocumento)
  {
    p.tipoDocumento.None? && p.autor.None? && p.titulo.None? && p.descripcion.None? && p.categoria.None?
    && p.stock.None? && p.precio.None? && p.editorial.None? && p.idioma.None? && p.paginas.None?
  }

  /** `$set` with the non-None fields. */
  function AplicarPatch(d: Documento, p: ActualizarDocumento): Documento
  {
    Documento(d.id, Sobre(p.tipoDocumento, d.tipoDocumento), Sobre(p.autor, d.autor), Sobre(p.titulo, d.titulo),
              Sobre(p.descripcion, d.descripcion), d.imagen, Sobre(p.categoria, d.categoria),
              Sobre(p.stock, d.stock), Sobre(p.precio, d.precio), Sobre(p.editorial, d.editorial),
              Sobre(p.idioma, d.idioma), Sobre(p.paginas, d.paginas))
  }

  /** Every given field is written and every None field kept; the id and
      the image never change; an empty patch is the identity and a patch is
      idempotent. */
  lemma AplicarPatchCorrecto(d: Documento, p: ActualizarDocumento)
    ensures var e := AplicarPatch(d, p);
            e.id == d.id && e.imagen == d.imagen
            && (p.tipoDocumento.None? ==> e.tipoDocumento == d.tipoDocumento)
            && (p.tipoDocumento.Some? ==> e.tipoDocumento == p.tipoDocumento.value)
            && (p.autor.None? ==> e.autor == d.autor) && (p.autor.Some? ==> e.autor == p.autor.value)
            && (p.categoria.None? ==> e.categoria == d.categoria) && (p.categoria.Some? ==> e.categoria == p.categoria.value)
            && (p.editorial.None? ==> e.editorial == d.editorial) && (p.editorial.Some? ==> e.editorial == p.editorial.value)
            && (p.idioma.None? ==> e.idioma == d.idioma) && (p.idioma.Some? ==> e.idioma == p.idioma.value)
            && (p.paginas.None? ==> e.paginas == d.paginas) && (p.paginas.Some? ==> e.paginas == p.paginas.value)
            && (p.titulo.None? ==> e.titulo == d.titulo) && (p.titulo.Some? ==> e.titulo == p.titulo.value)
            && (p.descripcion.None? ==> e.descripcion == d.descripcion)
            && (p.descripcion.Some? ==> e.descripcion == p.descripcion.value)
            && (p.stock.None? ==> e.stock == d.stock) && (p.stock.Some? ==> e.stock == p.stock.value)
            && (p.precio.None? ==> e.precio == d.precio) && (p.precio.Some? ==> e.precio == p.precio.value)
    ensures PatchVacio(p) ==> AplicarPatch(d, p) == d
    ensures AplicarPatch(AplicarPatch(d, p), p) == AplicarPatch(d, p)
  {
  }

  datatype Actualizacion = Actualizacion(respuesta: Result<Documento>, documentos: seq<Documento>)

  function Actualizar(ds: seq<Documento>, id: Id, p: ActualizarDocumento): Actualizacion
  {
    var k := Indice(ds, id);
    if k < 0 then Actualizacion(Err(ErrorActualizar(id)), ds)
    else
      var e := if PatchVacio(p) then ds[k] else AplicarPatch(ds[k], p);
      Actualizacion(Ok(e), ds[k := e])
  }

  /** Only the addressed document changes, to the patched record that is
      returned; a missing id gives 404 and changes nothing. */
  lemma ActualizarCorrecto(ds: seq<Documento>, id: Id, p: ActualizarDocumento)
    ensures IdLibre(ds, id) ==> Actualizar(ds, id, p) == Actualizacion(Err(ErrorActualizar(id)), ds)
    ensures !IdLibre(ds, id) ==>
              var r := Actualizar(ds, id, p);
              var k := Indice(ds, id);
              r.respuesta == Ok(AplicarPatch(ds[k], p)) && |r.documentos| == |ds|
              && r.documentos[k] == AplicarPatch(ds[k], p)
              && forall j :: 0 <= j < |ds| && j != k ==> r.documentos[j] == ds[j]
    ensures IdsUnicos(ds) ==> IdsUnicos(Actualizar(ds, id, p).documentos)
    ensures PatchVacio(p) ==> Actualizar(ds, id, p).documentos == ds
  {
    if !IdLibre(ds, id) {
      AplicarPatchCorrecto(ds[Indice(ds, id)], p);
    }
  }

  // --- delete (`eliminar_documento_por_id`)

  datatype Eliminacion = Eliminacion(respuesta: Outcome, documentos: seq<Documento>)

  function Eliminar(ds: seq<Documento>, id: Id): Eliminacion
  {
    var k := Indice(ds, id);
    if k < 0 then Eliminacion(Fail(ErrorPorId(id)), ds)
    else Eliminacion(Pass, ds[..k] + ds[k + 1..])
  }

  function IdDistinto(id: Id): Documento -> bool { (d: Documento) => d.id != id }

  /** A delete removes exactly the addressed document, after which a lookup
      by its id misses; a missing id gives 404 and changes nothing. */
  lemma EliminarCorrecto(ds: seq<Documento>, id: Id)
    requires IdsUnicos(ds)
    ensures IdLibre(ds, id) <==> Eliminar(ds, id).respuesta == Fail(ErrorPorId(id))
    ensures IdLibre(ds, id) ==> Eliminar(ds, id).documentos == ds
    ensures Eliminar(ds, id).documentos == Filter(ds, IdDistinto(id))
    ensures ObtenerPorId(Eliminar(ds, id).documentos, id) == Err(ErrorPorId(id))
    ensures IdsUnicos(Eliminar(ds, id).documentos)
  {
    var k := Indice(ds, id);
    if k >= 0 {
      EliminarEsFiltro(ds, id, k);
      QuitarConservaUnicos(ds, k);
      QuitarLibera(ds, k);
    } else {
      FilterTodos(ds, IdDistinto(id));
    }
  }

  /** With unique ids, removing one document frees its id. */
  lemma QuitarLibera(ds: seq<Documento>, k: nat)
    requires IdsUnicos(ds) && k < |ds|
    ensures IdLibre(ds[..k] + ds[k + 1..], ds[k].id)
  {
    var r := ds[..k] + ds[k + 1..];
    forall i | 0 <= i < |r| ensures r[i].id != ds[k].id {
      if i < k {
        assert r[i] == ds[i];
      } else {
        assert r[i] == ds[i + 1];
      }
    }
  }

  lemma EliminarEsFiltro(ds: seq<Documento>, id: Id, k: nat)
    requires IdsUnicos(ds) && k < |ds| && ds[k].id == id
    ensures ds[..k] + ds[k + 1..] == Filter(ds, IdDistinto(id))
  {
    forall i | 0 <= i < |ds| && i != k ensures IdDistinto(id)(ds[i]) {
    }
    FilterQuitaUno(ds, IdDistinto(id), k);
  }

  lemma QuitarConservaUnicos(ds: seq<Documento>, k: nat)
    requires IdsUnicos(ds) && k < |ds|
    ensures IdsUnicos(ds[..k] + ds[k + 1..])
  {
    var r := ds[..k] + ds[k + 1..];
    forall i, j | 0 <= i < j < |r| ensures r[i].id != r[j].id {
      var a := if i < k then i else i + 1;
      var b := if j < k then j else j + 1;
      assert r[i] == ds[a] && r[j] == ds[b];
    }
  }

  /** The documents collection. */
  class DocumentStore {
    var documentos: seq<Documento>

    ghost predicate Valid()
      reads this
    {
      IdsUnicos(documentos)
    }

    constructor ()
      ensures Valid() && documentos == []
    {
      documentos := [];
    }

    /** `guardar_documento`. */
    method GuardarDocumento(formulario: Formulario, documentoId: Id, urlImagen: string) returns (r: Documento)
      requires Valid() && IdLibre(documentos, documentoId)
      modifies this
      ensures Valid()
      ensures r == NuevoDocumento(formulario, documentoId, urlImagen)
      ensures documentos == old(documentos) + [r]
    {
      var documento := NuevoDocumento(formulario, documentoId, urlImagen);
      documentos := documentos + [documento];
      GuardarDocumentoCorrecto(old(documentos), formulario, documentoId, urlImagen);
      r := ObtenerPorId(documentos, documentoId).value;
    }

    /** `actualizar_documento`. */
    method ActualizarDocumento(documentoId: Id, patch: ActualizarDocumento) returns (r: Result<Documento>)
      requires Valid()
      modifies this
      ensures Valid()
      ensures r == Actualizar(old(documentos), documentoId, patch).respuesta
      ensures documentos == Actualizar(old(documentos), documentoId, patch).documentos
    {
      ActualizarCorrecto(documentos, documentoId, patch);
      var k := Indice(documentos, documentoId);
      if !PatchVacio(patch) && k >= 0 {
        documentos := documentos[k := AplicarPatch(documentos[k], patch)];
      }
      if k >= 0 {
        return Ok(documentos[k]);
      }
      r := Err(ErrorActualizar(documentoId));
    }

    /** `eliminar_documento_por_id`. */
    method EliminarDocumentoPorId(documentoId: Id) returns (r: Outcome)
      requires Valid()
      modifies this
      ensures Valid()
      ensures r == Eliminar(old(documentos), documentoId).respuesta
      ensures documentos == Eliminar(old(documentos), documentoId).documentos
    {
      EliminarCorrecto(documentos, documentoId);
      var k := Indice(documentos, documentoId);
      if k >= 0 {
        documentos := documentos[..k] + documentos[k + 1..];
        return Pass;
      }
      r := Fail(ErrorPorId(documentoId));
    }
  }
}
