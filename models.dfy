/** The records the service stores and exchanges (the models package), as plain values.
    A field that the source declares Optional is an `Option`; a default that a
    pydantic model gives a missing field is written out in a constructor
    function. */
module Modelos {
  import opened Common
  import opened Crypto

  /** Database identifiers (`_id`): opaque strings. */
  type Id = string

  // --- models/Usuario.py

  datatype Role = USER | ADMIN

  /** A stored user. `inactivo` and `rol` are Optional in the model, so a client
      may store an explicit null in either. */
  datatype Usuario = Usuario(
    id: Id, nombres: string, apellidos: string, correo: string, contra: Contra,
    pais: string, ciudad: string, inactivo: Option<bool>, rol: Option<Role>)

  /** The body of a registration (`Usuario` without its identifier); `contra`
      is the plain password. */
  datatype UsuarioEntrada = UsuarioEntrada(
    nombres: string, apellidos: string, correo: string, contra: string,
    pais: string, ciudad: string, inactivo: Option<bool>, rol: Option<Role>)

  /** A registration body that leaves out `inactivo` and `rol`: they default to
      False and USER. */
  function UsuarioConDefectos(nombres: string, apellidos: string, correo: string, contra: string,
                              pais: string, ciudad: string): (u: UsuarioEntrada)
    ensures u.inactivo == Some(false) && u.rol == Some(USER)
  {
    UsuarioEntrada(nombres, apellidos, correo, contra, pais, ciudad, Some(false), Some(USER))
  }

  /** What registration answers with: the stored user without `contra`. It is
      sent as a `JSONResponse`, which the route's `response_model` does not
      check, so a null `inactivo` or `rol` goes out as it is. */
  datatype UsuarioRespuesta = UsuarioRespuesta(
    id: Id, nombres: string, apellidos: string, correo: string,
    pais: string, ciudad: string, inactivo: Option<bool>, rol: Option<Role>)

  function SinContra(u: Usuario): (r: UsuarioRespuesta)
    ensures r.id == u.id && r.correo == u.correo && r.rol == u.rol && r.inactivo == u.inactivo
  {
    UsuarioRespuesta(u.id, u.nombres, u.apellidos, u.correo, u.pais, u.ciudad, u.inactivo, u.rol)
  }

  /** `UserResponse` as a route's `response_model` validates it: `inactivo`
      and `rol` must be present, not null. */
  datatype Perfil = Perfil(
    id: Id, nombres: string, apellidos: string, correo: string,
    pais: string, ciudad: string, inactivo: bool, rol: Role)

  /** FastAPI checking a stored user against `UserResponse`: a null
      `inactivo` or `rol` fails validation, which the client sees as a 500;
      otherwise every field but `contra` is carried over. */
  function ComoPerfil(u: Usuario): (r: Result<Perfil>)
    ensures r.Err? <==> u.inactivo.None? || u.rol.None?
    ensures r.Err? ==> r.error == INTERNAL_ERROR
    ensures r.Ok? ==> r.value.id == u.id && r.value.nombres == u.nombres && r.value.apellidos == u.apellidos
                      && r.value.correo == u.correo && r.value.pais == u.pais && r.value.ciudad == u.ciudad
                      && Some(r.value.inactivo) == u.inactivo && Some(r.value.rol) == u.rol
  {
    if u.inactivo.None? || u.rol.None? then Err(INTERNAL_ERROR)
    else Ok(Perfil(u.id, u.nombres, u.apellidos, u.correo, u.pais, u.ciudad, u.inactivo.value, u.rol.value))
  }

  /** `find_one({"correo": correo})` finds something. */
  predicate CorreoUsado(us: seq<Usuario>, correo: string)
  {
    exists i :: 0 <= i < |us| && us[i].correo == correo
  }

  /** `find_one({"correo": correo})` on the users collection: the first user,
      in insertion order, with that exact email. */
  function UsuarioPorCorreo(usuarios: seq<Usuario>, correo: string): (r: Option<Usuario>)
    ensures r.Some? ==> exists i :: 0 <= i < |usuarios| && usuarios[i] == r.value && r.value.correo == correo
                          && forall j :: 0 <= j < i ==> usuarios[j].correo != correo
    ensures r.None? <==> forall i :: 0 <= i < |usuarios| ==> usuarios[i].correo != correo
  {
    if usuarios == [] then None
    else if usuarios[0].correo == correo then Some(usuarios[0])
    else
      var r := UsuarioPorCorreo(usuarios[1..], correo);
      if r.Some? then
        var i :| 0 <= i < |usuarios| - 1 && usuarios[1..][i] == r.value && r.value.correo == correo
                 && forall j :: 0 <= j < i ==> usuarios[1..][j].correo != correo;
        assert usuarios[i + 1] == r.value;
        r
      else r
  }

  /** `ActualizarUsuario`: every field optional, None meaning "leave it". */
  datatype ActualizarUsuario = ActualizarUsuario(
    nombres: Option<string>, apellidos: Option<string>, correo: Option<string>,
    contra: Option<string>, pais: Option<string>, ciudad: Option<string>,
    inactivo: Option<bool>, rol: Option<Role>)

  // --- models/Documento.py

  datatype Documento = Documento(
    id: Id, tipoDocumento: string, autor: string, titulo: string, descripcion: string,
    imagen: string, categoria: string, stock: int, precio: int, editorial: string,
    idioma: string, paginas: int)

  /** `find_one({"_id": id})` on the documents collection: the first document,
      in insertion order, with that id. */
  function DocumentoPorId(docs: seq<Documento>, id: Id): (r: Option<Documento>)
    ensures r.Some? ==> r.value in docs && r.value.id == id
    ensures r.None? <==> forall i :: 0 <= i < |docs| ==> docs[i].id != id
  {
    if docs == [] then None
    else if docs[0].id == id then Some(docs[0])
    else DocumentoPorId(docs[1..], id)
  }

  /** The 404 of every handler that looks a document up by id and finds none. */
  function DocumentoNoEncontrado(id: Id): HttpError
  {
    HttpError(404, "Documento con ID " + id + " no encontrado")
  }

  /** `ActualizarDocumento`: the ten descriptive fields, each optional. */
  datatype ActualizarDocumento = ActualizarDocumento(
    tipoDocumento: Option<string>, autor: Option<string>, titulo: Option<string>,
    descripcion: Option<string>, categoria: Option<string>, stock: Option<int>,
    precio: Option<int>, editorial: Option<string>, idioma: Option<string>,
    paginas: Option<int>)

  // --- models/Notificacion.py

  datatype TipoNotificacion = INFO | ALERTA | ERROR | EXITO

  datatype EstadoNotificacion = NO_LEIDA | LEIDA | ARCHIVADA

  /** Times (`fecha_*`) are seconds on one clock; the source stores them as ISO
      strings, whose order is the order of the instants. */
  datatype Notificacion = Notificacion(
    id: Id, usuarioId: Id, tipo: TipoNotificacion, titulo: string, mensaje: string,
    documentoId: Option<string>, fechaCreacion: int, estado: EstadoNotificacion,
    fechaLectura: Option<int>, icono: string, accionUrl: Option<string>)

  /** `ConfiguracionRecordatorio`, the body of a reminder creation. */
  datatype ConfiguracionRecordatorio = ConfiguracionRecordatorio(
    documentoId: Id, tituloRecordatorio: string, fechaRecordatorio: int, repetir: bool,
    intervaloRepeticion: Option<int>, mensaje: Option<string>, enviarEmail: bool,
    emailDestino: Option<string>)

  /** A reminder body that gives only the required fields. */
  function RecordatorioConDefectos(documentoId: Id, titulo: string, fecha: int): (c: ConfiguracionRecordatorio)
    ensures !c.repetir && c.intervaloRepeticion.None? && c.mensaje.None?
    ensures !c.enviarEmail && c.emailDestino.None?
  {
    ConfiguracionRecordatorio(documentoId, titulo, fecha, false, None, None, false, None)
  }

  datatype Recordatorio = Recordatorio(
    id: Id, usuarioId: Id, documentoId: Id, titulo: string, mensaje: Option<string>,
    fechaProgramada: int, repetir: bool, intervaloRepeticion: Option<int>,
    proximaEjecucion: int, ultimaEjecucion: Option<int>, enviado: bool, activo: bool,
    enviarEmail: bool, emailDestino: Option<string>, fechaCreacion: int)

  // --- models/Integracion.py

  datatype ProveedorNube = GOOGLE_DRIVE | DROPBOX | ONEDRIVE | OTRO

  datatype EstadoSincronizacion = PENDIENTE | EN_PROGRESO | COMPLETADO | FALLIDO

  datatype ConfiguracionIntegracion = ConfiguracionIntegracion(
    proveedor: ProveedorNube, tokenAcceso: string, carpetaId: Option<string>,
    sincronizacionAutomatica: bool, intervaloSincronizacion: Option<int>)

  datatype DocumentoExportacion = DocumentoExportacion(documentoId: Id, formato: string)

  // --- models/IA.py

  /** `ConsultaBusquedaSemantica`. */
  datatype Consulta = Consulta(query: string, numResultados: int)

  function ConsultaConDefectos(query: string): (c: Consulta)
    ensures c.query == query && c.numResultados == 5
  {
    Consulta(query, 5)
  }

  /** `ResultadoBusqueda`. The source rounds `relevancia` to two decimals; the
      model reports the score itself. */
  datatype ResultadoBusqueda = ResultadoBusqueda(
    documentoId: Id, titulo: string, relevancia: real, fragmento: string)

  /** `RespuestaBusquedaSemantica`: it has no `mensaje` field, so a message the
      handler passes it is dropped. The execution time is left out. */
  datatype RespuestaBusqueda = RespuestaBusqueda(resultados: seq<ResultadoBusqueda>, totalEncontrados: int)
}
