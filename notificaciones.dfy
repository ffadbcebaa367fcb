/** routes/notificaciones.py: the notifications and reminders collections and
    their handlers. The caller is identified by the id of the user the bearer
    token resolves to (see Autenticacion); the current time, fresh ids and the
    documents collection are parameters. Times are seconds on one clock. */
module Notificaciones {
  import opened Common
  import opened Seqs
  import opened Text
  import opened Modelos

  /** `to_list(50)` of both listings. */
  const MAX_LISTADO: nat := 50

  const ERROR_FECHA_PASADA := HttpError(400, "La fecha del recordatorio debe ser futura")
  const ERROR_SIN_CAMBIOS := HttpError(400, "No se proporcionaron datos para actualizar")
  const MENSAJE_LEIDA := "Notificación marcada como leída"
  const MENSAJE_ELIMINADO := "Recordatorio eliminado correctamente"

  function ErrorNotificacion(id: Id): HttpError
  {
    HttpError(404, "Notificación con ID " + id + " no encontrada o no pertenece al usuario")
  }
  function ErrorRecordatorio(id: Id): HttpError
  {
    HttpError(404, "Recordatorio con ID " + id + " no encontrado o no pertenece al usuario")
  }

  function MensajeTodas(n: nat): string { NatToString(n) + " notificaciones marcadas como leídas" }

  /** The icon map of `crear_notificacion`. */
  function Icono(t: TipoNotificacion): string
  {
    match t
    case INFO => "info-circle"
    case ALERTA => "exclamation-triangle"
    case ERROR => "times-circle"
    case EXITO => "check-circle"
  }

  /** Each type has its own icon. */
  lemma IconoInyectivo(a: TipoNotificacion, b: TipoNotificacion)
    ensures Icono(a) == Icono(b) <==> a == b
  {
  }

  // --- notifications

  ghost predicate IdsUnicosN(ns: seq<Notificacion>)
  {
    forall i, j :: 0 <= i < j < |ns| ==> ns[i].id != ns[j].id
  }

  predicate IdLibreN(ns: seq<Notificacion>, id: Id)
  {
    forall i :: 0 <= i < |ns| ==> ns[i].id != id
  }

  /** The position of the first notification with that id, or -1. */
  function IndiceN(ns: seq<Notificacion>, id: Id): (k: int)
    ensures -1 <= k < |ns|
    ensures k >= 0 ==> ns[k].id == id && forall j :: 0 <= j < k ==> ns[j].id != id
    ensures k == -1 <==> IdLibreN(ns, id)
  {
    if ns == [] then -1
    else if ns[|ns| - 1].id == id && IndiceN(ns[..|ns| - 1], id) == -1 then |ns| - 1
    else IndiceN(ns[..|ns| - 1], id)
  }

  /** The filter of `listar_notificaciones`: the caller's, with the given state
      and type when those are given. */
  function CoincideN(usuarioId: Id, estado: Option<EstadoNotificacion>, tipo: Option<TipoNotificacion>): Notificacion -> bool
  {
    (n: Notificacion) =>
      n.usuarioId == usuarioId && (estado.Some? ==> n.estado == estado.value) && (tipo.Some? ==> n.tipo == tipo.value)
  }

  function FechaCreacion(n: Notificacion): real { n.fechaCreacion as real }

  /** `find(filtro).sort("fecha_creacion", -1).to_list(50)`; notifications
      created at the same instant keep their insertion order. */
  function ListarNotificaciones(ns: seq<Notificacion>, usuarioId: Id, estado: Option<EstadoNotificacion>,
                                tipo: Option<TipoNotificacion>): seq<Notificacion>
  {
    Listado(ns, CoincideN(usuarioId, estado, tipo), FechaCreacion, MAX_LISTADO)
  }

  /** The listing holds min(50, matches) of the caller's notifications that
      match the filters, newest first; with at most 50 matches it holds all
      of them, each once. */
  lemma ListarNotificacionesCorrecto(ns: seq<Notificacion>, usuarioId: Id, estado: Option<EstadoNotificacion>,
                                     tipo: Option<TipoNotificacion>)
    ensures var r := ListarNotificaciones(ns, usuarioId, estado, tipo);
            var m := Filter(ns, CoincideN(usuarioId, estado, tipo));
            |r| == Min(MAX_LISTADO, |m|)
            && (forall i :: 0 <= i < |r| ==> r[i] in ns && CoincideN(usuarioId, estado, tipo)(r[i]))
            && (forall i, j :: 0 <= i < j < |r| ==> r[i].fechaCreacion >= r[j].fechaCreacion)
    ensures var m := Filter(ns, CoincideN(usuarioId, estado, tipo));
            |m| <= MAX_LISTADO ==> multiset(ListarNotificaciones(ns, usuarioId, estado, tipo)) == multiset(m)
  {
    var p := CoincideN(usuarioId, estado, tipo);
    SortDescLength(Filter(ns, p), FechaCreacion);
    ListadoMiembros(ns, p, FechaCreacion, MAX_LISTADO);
    ListadoDescendente(ns, p, FechaCreacion, MAX_LISTADO);
    var r := ListarNotificaciones(ns, usuarioId, estado, tipo);
    forall i, j | 0 <= i < j < |r| ensures r[i].fechaCreacion >= r[j].fechaCreacion {
      assert FechaCreacion(r[i]) >= FechaCreacion(r[j]);
    }
    if |Filter(ns, p)| <= MAX_LISTADO {
      ListadoCompleto(ns, p, FechaCreacion, MAX_LISTADO);
    }
  }

  /** The listing is drawn from the matches, and no match it leaves out is
      newer than one it holds. */
  lemma ListarNotificacionesMejores(ns: seq<Notificacion>, usuarioId: Id, estado: Option<EstadoNotificacion>,
                                     tipo: Option<TipoNotificacion>)
    ensures var r := ListarNotificaciones(ns, usuarioId, estado, tipo);
            var m := Filter(ns, CoincideN(usuarioId, estado, tipo));
            multiset(r) <= multiset(m)
            && forall x, y :: x in r && y in multiset(m) - multiset(r) ==> y.fechaCreacion <= x.fechaCreacion
  {
    var p := CoincideN(usuarioId, estado, tipo);
    ListadoMejores(ns, p, FechaCreacion, MAX_LISTADO);
    var r := ListarNotificaciones(ns, usuarioId, estado, tipo);
    var m := Filter(ns, p);
    forall x: Notificacion, y: Notificacion | x in r && y in multiset(m) - multiset(r) ensures y.fechaCreacion <= x.fechaCreacion {
      assert FechaCreacion(y) <= FechaCreacion(x);
    }
  }

  /** The body of `crear_notificacion`. */
  datatype NuevaNotificacion = NuevaNotificacion(
    tipo: TipoNotificacion, titulo: string, mensaje: string, documentoId: Option<string>, accionUrl: Option<string>)

  /** The document an optional `documento_id` names is checked only when the
      id is given and non-empty. */
  predicate DocumentoValido(docs: seq<Documento>, documentoId: Option<string>)
  {
    documentoId.None? || documentoId.value == [] || DocumentoPorId(docs, documentoId.value).Some?
  }

  function RegistroNotificacion(b: NuevaNotificacion, id: Id, usuarioId: Id, ahora: int): Notificacion
  {
    Notificacion(id, usuarioId, b.tipo, b.titulo, b.mensaje, b.documentoId, ahora, NO_LEIDA, None,
                 Icono(b.tipo), b.accionUrl)
  }

  datatype CreacionN = CreacionN(respuesta: Result<Notificacion>, notificaciones: seq<Notificacion>)

  function CrearNotificacion(ns: seq<Notificacion>, docs: seq<Documento>, b: NuevaNotificacion, id: Id,
                             usuarioId: Id, ahora: int): CreacionN
  {
    if !DocumentoValido(docs, b.documentoId) then CreacionN(Err(DocumentoNoEncontrado(b.documentoId.value)), ns)
    else
      var n := RegistroNotificacion(b, id, usuarioId, ahora);
      CreacionN(Ok(n), ns + [n])
  }

  /** A named missing document gives 404 and inserts nothing; otherwise one
      unread notification of the caller is appended, unread, never read,
      with its type's icon, and returned. */
  lemma CrearNotificacionCorrecto(ns: seq<Notificacion>, docs: seq<Documento>, b: NuevaNotificacion, id: Id,
                                  usuarioId: Id, ahora: int)
    ensures b.documentoId.Some? && b.documentoId.value != [] && DocumentoPorId(docs, b.documentoId.value).None? ==>
              CrearNotificacion(ns, docs, b, id, usuarioId, ahora) == CreacionN(Err(DocumentoNoEncontrado(b.documentoId.value)), ns)
    ensures DocumentoValido(docs, b.documentoId) ==>
              var r := CrearNotificacion(ns, docs, b, id, usuarioId, ahora);
              r.respuesta.Ok? && r.notificaciones == ns + [r.respuesta.value]
              && var n := r.respuesta.value;
              n.id == id && n.usuarioId == usuarioId && n.estado == NO_LEIDA && n.fechaLectura.None?
              && n.icono == Icono(b.tipo) && n.tipo == b.tipo && n.documentoId == b.documentoId
              && n.titulo == b.titulo && n.mensaje == b.mensaje && n.accionUrl == b.accionUrl
              && n.fechaCreacion == ahora
  {
  }

  /** The notification as marked read at a time. */
  function Leida(n: Notificacion, ahora: int): Notificacion
  {
    n.(estado := LEIDA, fechaLectura := Some(ahora))
  }

  datatype Marca = Marca(respuesta: Result<Id>, notificaciones: seq<Notificacion>)

  /** `marcar_notificacion_como_leida`: 404 unless the notification exists and
      is the caller's; otherwise it is marked read, whatever its state. */
  function MarcarLeida(ns: seq<Notificacion>, id: Id, usuarioId: Id, ahora: int): Marca
  {
    var k := IndiceN(ns, id);
    if k < 0 || ns[k].usuarioId != usuarioId then Marca(Err(ErrorNotificacion(id)), ns)
    else Marca(Ok(id), ns[k := Leida(ns[k], ahora)])
  }

  /** Only the addressed notification changes, and only in its state (now
      LEIDA) and read date; someone else's or a missing one gives 404 and
      changes nothing. */
  lemma MarcarLeidaCorrecto(ns: seq<Notificacion>, id: Id, usuarioId: Id, ahora: int)
    ensures var k := IndiceN(ns, id);
            (k < 0 || ns[k].usuarioId != usuarioId) <==> MarcarLeida(ns, id, usuarioId, ahora).respuesta.Err?
    ensures MarcarLeida(ns, id, usuarioId, ahora).respuesta.Err? ==>
              MarcarLeida(ns, id, usuarioId, ahora) == Marca(Err(ErrorNotificacion(id)), ns)
    ensures var r := MarcarLeida(ns, id, usuarioId, ahora);
            r.respuesta.Ok? ==>
              var k := IndiceN(ns, id);
              |r.notificaciones| == |ns| && r.notificaciones[k].estado == LEIDA
              && r.notificaciones[k].fechaLectura == Some(ahora)
              && r.notificaciones[k] == ns[k].(estado := LEIDA, fechaLectura := Some(ahora))
              && forall j :: 0 <= j < |ns| && j != k ==> r.notificaciones[j] == ns[j]
  {
  }

  /** The filter of `marcar_todas_notificaciones_como_leidas`. */
  function NoLeidaDe(usuarioId: Id): Notificacion -> bool
  {
    (n: Notificacion) => n.usuarioId == usuarioId && n.estado == NO_LEIDA
  }

  /** `update_many` on that filter. */
  function MarcarTodas(ns: seq<Notificacion>, usuarioId: Id, ahora: int): (r: seq<Notificacion>)
    ensures |r| == |ns|
    ensures forall i :: 0 <= i < |ns| ==> r[i] == if NoLeidaDe(usuarioId)(ns[i]) then Leida(ns[i], ahora) else ns[i]
  {
    seq(|ns|, i requires 0 <= i < |ns| => if NoLeidaDe(usuarioId)(ns[i]) then Leida(ns[i], ahora) else ns[i])
  }

  /** The reported count is the number of the caller's unread notifications,
      none of which is left unread. */
  lemma {:induction false} MarcarTodasCuenta(ns: seq<Notificacion>, usuarioId: Id, ahora: int)
    ensures Count(MarcarTodas(ns, usuarioId, ahora), NoLeidaDe(usuarioId)) == 0
    ensures |Filter(ns, NoLeidaDe(usuarioId))| == Count(ns, NoLeidaDe(usuarioId))
  {
    FilterLength(ns, NoLeidaDe(usuarioId));
    var r := MarcarTodas(ns, usuarioId, ahora);
    SinCumplir(r, NoLeidaDe(usuarioId));
    FilterLength(r, NoLeidaDe(usuarioId));
  }

  // --- reminders

  ghost predicate IdsUnicosR(rs: seq<Recordatorio>)
  {
    forall i, j :: 0 <= i < j < |rs| ==> rs[i].id != rs[j].id
  }

  predicate IdLibreR(rs: seq<Recordatorio>, id: Id)
  {
    forall i :: 0 <= i < |rs| ==> rs[i].id != id
  }

  function IndiceR(rs: seq<Recordatorio>, id: Id): (k: int)
    ensures -1 <= k < |rs|
    ensures k >= 0 ==> rs[k].id == id && forall j :: 0 <= j < k ==> rs[j].id != id
    ensures k == -1 <==> IdLibreR(rs, id)
  {
    if rs == [] then -1
    else if rs[|rs| - 1].id == id && IndiceR(rs[..|rs| - 1], id) == -1 then |rs| - 1
    else IndiceR(rs[..|rs| - 1], id)
  }

  /** The caller's reminder with that id, or -1: the lookup
      `find_one({"_id": id, "usuario_id": caller})` with ids unique. */
  function IndicePropio(rs: seq<Recordatorio>, id: Id, usuarioId: Id): (k: int)
    ensures -1 <= k < |rs|
    ensures k >= 0 ==> rs[k].id == id && rs[k].usuarioId == usuarioId
    ensures k == -1 <==> IdLibreR(rs, id) || rs[IndiceR(rs, id)].usuarioId != usuarioId
    ensures k == -1 && IdsUnicosR(rs) ==> forall i :: 0 <= i < |rs| && rs[i].id == id ==> rs[i].usuarioId != usuarioId
  {
    var k := IndiceR(rs, id);
    if k >= 0 && rs[k].usuarioId == usuarioId then k else -1
  }

  function RegistroRecordatorio(c: ConfiguracionRecordatorio, id: Id, usuarioId: Id, ahora: int): Recordatorio
  {
    Recordatorio(id, usuarioId, c.documentoId, c.tituloRecordatorio, c.mensaje, c.fechaRecordatorio,
                 c.repetir, c.intervaloRepeticion, c.fechaRecordatorio, None, false, true, c.enviarEmail,
                 if c.enviarEmail then c.emailDestino else None, ahora)
  }

  datatype CreacionR = CreacionR(respuesta: Result<Recordatorio>, recordatorios: seq<Recordatorio>)

  /** `crear_recordatorio`: the document is checked before the date. */
  function CrearRecordatorio(rs: seq<Recordatorio>, docs: seq<Documento>, c: ConfiguracionRecordatorio,
                             id: Id, usuarioId: Id, ahora: int): CreacionR
  {
    if DocumentoPorId(docs, c.documentoId).None? then CreacionR(Err(DocumentoNoEncontrado(c.documentoId)), rs)
    else if c.fechaRecordatorio <= ahora then CreacionR(Err(ERROR_FECHA_PASADA), rs)
    else
      var r := RegistroRecordatorio(c, id, usuarioId, ahora);
      CreacionR(Ok(r), rs + [r])
  }

  /** Creation succeeds exactly for an existing document and a future date;
      the new reminder is due at its date, unsent, active, never run, and has
      a destination email only when email is enabled. */
  lemma CrearRecordatorioCorrecto(rs: seq<Recordatorio>, docs: seq<Documento>, c: ConfiguracionRecordatorio,
                                  id: Id, usuarioId: Id, ahora: int)
    ensures var r := CrearRecordatorio(rs, docs, c, id, usuarioId, ahora);
            r.respuesta.Ok? <==> DocumentoPorId(docs, c.documentoId).Some? && c.fechaRecordatorio > ahora
    ensures var r := CrearRecordatorio(rs, docs, c, id, usuarioId, ahora);
            r.respuesta.Err? ==> r.recordatorios == rs
    ensures var r := CrearRecordatorio(rs, docs, c, id, usuarioId, ahora);
            DocumentoPorId(docs, c.documentoId).None? ==> r.respuesta == Err(DocumentoNoEncontrado(c.documentoId))
    ensures var r := CrearRecordatorio(rs, docs, c, id, usuarioId, ahora);
            DocumentoPorId(docs, c.documentoId).Some? && c.fechaRecordatorio <= ahora ==> r.respuesta == Err(ERROR_FECHA_PASADA)
    ensures var r := CrearRecordatorio(rs, docs, c, id, usuarioId, ahora);
            r.respuesta.Ok? ==>
              var n := r.respuesta.value;
              r.recordatorios == rs + [n] && n.id == id && n.usuarioId == usuarioId && n.documentoId == c.documentoId
              && n.titulo == c.tituloRecordatorio && n.mensaje == c.mensaje && n.repetir == c.repetir
              && n.intervaloRepeticion == c.intervaloRepeticion && n.enviarEmail == c.enviarEmail
              && n.fechaCreacion == ahora
              && n.fechaProgramada == c.fechaRecordatorio && n.proximaEjecucion == c.fechaRecordatorio
              && n.proximaEjecucion > ahora && !n.enviado && n.activo && n.ultimaEjecucion.None?
              && (n.emailDestino.Some? ==> n.enviarEmail) && (c.enviarEmail ==> n.emailDestino == c.emailDestino)
  {
  }

  /** The filter of `listar_recordatorios`: `documento_id` counts only when
      non-empty. */
  function CoincideR(usuarioId: Id, activo: Option<bool>, documentoId: Option<string>): Recordatorio -> bool
  {
    (r: Recordatorio) =>
      r.usuarioId == usuarioId && (activo.Some? ==> r.activo == activo.value)
      && (documentoId.Some? && documentoId.value != [] ==> r.documentoId == documentoId.value)
  }

  /** Ascending by `proxima_ejecucion` is descending by its negation. */
  function ProximaInvertida(r: Recordatorio): real { -(r.proximaEjecucion as real) }

  /** `find(filtro).sort("proxima_ejecucion", 1).to_list(50)`. */
  function ListarRecordatorios(rs: seq<Recordatorio>, usuarioId: Id, activo: Option<bool>,
                               documentoId: Option<string>): seq<Recordatorio>
  {
    Listado(rs, CoincideR(usuarioId, activo, documentoId), ProximaInvertida, MAX_LISTADO)
  }

  /** min(50, matches) of the caller's matching reminders, soonest first;
      all of them when there are at most 50. */
  lemma ListarRecordatoriosCorrecto(rs: seq<Recordatorio>, usuarioId: Id, activo: Option<bool>,
                                    documentoId: Option<string>)
    ensures var r := ListarRecordatorios(rs, usuarioId, activo, documentoId);
            var m := Filter(rs, CoincideR(usuarioId, activo, documentoId));
            |r| == Min(MAX_LISTADO, |m|)
            && (forall i :: 0 <= i < |r| ==> r[i] in rs && CoincideR(usuarioId, activo, documentoId)(r[i]))
            && (forall i, j :: 0 <= i < j < |r| ==> r[i].proximaEjecucion <= r[j].proximaEjecucion)
    ensures var m := Filter(rs, CoincideR(usuarioId, activo, documentoId));
            |m| <= MAX_LISTADO ==> multiset(ListarRecordatorios(rs, usuarioId, activo, documentoId)) == multiset(m)
  {
    var p := CoincideR(usuarioId, activo, documentoId);
    SortDescLength(Filter(rs, p), ProximaInvertida);
    ListadoMiembros(rs, p, ProximaInvertida, MAX_LISTADO);
    ListadoDescendente(rs, p, ProximaInvertida, MAX_LISTADO);
    var r := ListarRecordatorios(rs, usuarioId, activo, documentoId);
    forall i, j | 0 <= i < j < |r| ensures r[i].proximaEjecucion <= r[j].proximaEjecucion {
      assert ProximaInvertida(r[i]) >= ProximaInvertida(r[j]);
    }
    if |Filter(rs, p)| <= MAX_LISTADO {
      ListadoCompleto(rs, p, ProximaInvertida, MAX_LISTADO);
    }
  }

  /** The listing is drawn from the matches, and no match it leaves out is
      due sooner than one it holds. */
  lemma ListarRecordatoriosMejores(rs: seq<Recordatorio>, usuarioId: Id, activo: Option<bool>,
                                    documentoId: Option<string>)
    ensures var r := ListarRecordatorios(rs, usuarioId, activo, documentoId);
            var m := Filter(rs, CoincideR(usuarioId, activo, documentoId));
            multiset(r) <= multiset(m)
            && forall x, y :: x in r && y in multiset(m) - multiset(r) ==> y.proximaEjecucion >= x.proximaEjecucion
  {
    var p := CoincideR(usuarioId, activo, documentoId);
    ListadoMejores(rs, p, ProximaInvertida, MAX_LISTADO);
    var r := ListarRecordatorios(rs, usuarioId, activo, documentoId);
    var m := Filter(rs, p);
    forall x: Recordatorio, y: Recordatorio | x in r && y in multiset(m) - multiset(r) ensures y.proximaEjecucion >= x.proximaEjecucion {
      assert ProximaInvertida(y) <= ProximaInvertida(x);
    }
  }

  /** The optional body fields of `actualizar_recordatorio`. */
  datatype CambiosRecordatorio = CambiosRecordatorio(
    titulo: Option<string>, mensaje: Option<string>, fechaProgramada: Option<int>, repetir: Option<bool>,
    intervaloRepeticion: Option<int>, activo: Option<bool>, enviarEmail: Option<bool>, emailDestino: Option<string>)

  predicate SinCambios(c: CambiosRecordatorio)
  {
    c.titulo.None? && c.mensaje.None? && c.fechaProgramada.None? && c.repetir.None?
    && c.intervaloRepeticion.None? && c.activo.None? && c.enviarEmail.None? && c.emailDestino.None?
  }

  /** `$set` with the built `actualizacion`: a new date moves both the
      scheduled date and the next run. */
  function AplicarCambios(r: Recordatorio, c: CambiosRecordatorio): Recordatorio
  {
    r.(titulo := Sobre(c.titulo, r.titulo),
       mensaje := if c.mensaje.Some? then c.mensaje else r.mensaje,
       fechaProgramada := Sobre(c.fechaProgramada, r.fechaProgramada),
       proximaEjecucion := Sobre(c.fechaProgramada, r.proximaEjecucion),
       repetir := Sobre(c.repetir, r.repetir),
       intervaloRepeticion := if c.intervaloRepeticion.Some? then c.intervaloRepeticion else r.intervaloRepeticion,
       activo := Sobre(c.activo, r.activo),
       enviarEmail := Sobre(c.enviarEmail, r.enviarEmail),
       emailDestino := if c.emailDestino.Some? then c.emailDestino else r.emailDestino)
  }

  datatype ActualizacionR = ActualizacionR(respuesta: Result<Recordatorio>, recordatorios: seq<Recordatorio>)

  /** The update of one reminder: a past date is refused before an empty
      update. */
  function Actualizacion(r: Recordatorio, c: CambiosRecordatorio, ahora: int): Result<Recordatorio>
  {
    if c.fechaProgramada.Some? && c.fechaProgramada.value <= ahora then Err(ERROR_FECHA_PASADA)
    else if SinCambios(c) then Err(ERROR_SIN_CAMBIOS)
    else Ok(AplicarCambios(r, c))
  }

  /** `actualizar_recordatorio`: ownership first, then a past date, then an
      empty update. */
  function ActualizarRecordatorio(rs: seq<Recordatorio>, id: Id, usuarioId: Id, c: CambiosRecordatorio,
                                  ahora: int): ActualizacionR
  {
    var k := IndicePropio(rs, id, usuarioId);
    if k < 0 then ActualizacionR(Err(ErrorRecordatorio(id)), rs)
    else
      var a := Actualizacion(rs[k], c, ahora);
      if a.Err? then ActualizacionR(a, rs) else ActualizacionR(a, rs[k := a.value])
  }

  /** Every error leaves the reminders unchanged; a past date is refused with
      its own 400 before an empty update is; a success changes only the
      addressed reminder, only in the given fields, keeps its owner, id and
      document, and a new date is in the future and is also the next run. */
  lemma ActualizarRecordatorioCorrecto(rs: seq<Recordatorio>, id: Id, usuarioId: Id, c: CambiosRecordatorio, ahora: int)
    ensures var r := ActualizarRecordatorio(rs, id, usuarioId, c, ahora);
            r.respuesta.Err? ==> r.recordatorios == rs
    ensures IndicePropio(rs, id, usuarioId) < 0 ==>
              ActualizarRecordatorio(rs, id, usuarioId, c, ahora).respuesta == Err(ErrorRecordatorio(id))
    ensures IndicePropio(rs, id, usuarioId) >= 0 && c.fechaProgramada.Some? && c.fechaProgramada.value <= ahora ==>
              ActualizarRecordatorio(rs, id, usuarioId, c, ahora).respuesta == Err(ERROR_FECHA_PASADA)
    ensures IndicePropio(rs, id, usuarioId) >= 0 && (c.fechaProgramada.None? || c.fechaProgramada.value > ahora) ==>
              (ActualizarRecordatorio(rs, id, usuarioId, c, ahora).respuesta == Err(ERROR_SIN_CAMBIOS) <==> SinCambios(c))
    ensures var r := ActualizarRecordatorio(rs, id, usuarioId, c, ahora);
            r.respuesta.Ok? ==>
              var k := IndicePropio(rs, id, usuarioId);
              var n := r.respuesta.value;
              k >= 0 && |r.recordatorios| == |rs| && r.recordatorios[k] == n
              && (forall j :: 0 <= j < |rs| && j != k ==> r.recordatorios[j] == rs[j])
              && n.id == rs[k].id && n.usuarioId == usuarioId && n.documentoId == rs[k].documentoId
              && n.enviado == rs[k].enviado && n.ultimaEjecucion == rs[k].ultimaEjecucion
              && (c.fechaProgramada.Some? ==> n.fechaProgramada == n.proximaEjecucion == c.fechaProgramada.value > ahora)
              && (c.fechaProgramada.None? ==> n.fechaProgramada == rs[k].fechaProgramada && n.proximaEjecucion == rs[k].proximaEjecucion)
              && (c.titulo.None? ==> n.titulo == rs[k].titulo) && (c.activo.None? ==> n.activo == rs[k].activo)
              && (c.titulo.Some? ==> n.titulo == c.titulo.value) && (c.activo.Some? ==> n.activo == c.activo.value)
              && (c.mensaje.None? ==> n.mensaje == rs[k].mensaje) && (c.mensaje.Some? ==> n.mensaje == c.mensaje)
              && (c.repetir.None? ==> n.repetir == rs[k].repetir) && (c.repetir.Some? ==> n.repetir == c.repetir.value)
              && (c.intervaloRepeticion.None? ==> n.intervaloRepeticion == rs[k].intervaloRepeticion)
              && (c.intervaloRepeticion.Some? ==> n.intervaloRepeticion == c.intervaloRepeticion)
              && (c.enviarEmail.None? ==> n.enviarEmail == rs[k].enviarEmail)
              && (c.enviarEmail.Some? ==> n.enviarEmail == c.enviarEmail.value)
              && (c.emailDestino.None? ==> n.emailDestino == rs[k].emailDestino)
              && (c.emailDestino.Some? ==> n.emailDestino == c.emailDestino)
              && n.fechaCreacion == rs[k].fechaCreacion
  {
  }

  datatype EliminacionR = EliminacionR(respuesta: Result<Id>, recordatorios: seq<Recordatorio>)

  /** `eliminar_recordatorio`. */
  function EliminarRecordatorio(rs: seq<Recordatorio>, id: Id, usuarioId: Id): EliminacionR
  {
    var k := IndicePropio(rs, id, usuarioId);
    if k < 0 then EliminacionR(Err(ErrorRecordatorio(id)), rs)
    else EliminacionR(Ok(id), rs[..k] + rs[k + 1..])
  }

  /** Every reminder but the one with that id. */
  function IdDistintoR(id: Id): Recordatorio -> bool
  {
    (r: Recordatorio) => r.id != id
  }

  /** Only the caller's reminder is removed, and then it is gone (ids being
      unique) and every other reminder stays, in order; otherwise 404 and
      nothing changes. */
  lemma EliminarRecordatorioCorrecto(rs: seq<Recordatorio>, id: Id, usuarioId: Id)
    requires IdsUnicosR(rs)
    ensures var r := EliminarRecordatorio(rs, id, usuarioId);
            r.respuesta.Err? <==> IdLibreR(rs, id) || rs[IndiceR(rs, id)].usuarioId != usuarioId
    ensures var r := EliminarRecordatorio(rs, id, usuarioId);
            r.respuesta.Err? ==> r == EliminacionR(Err(ErrorRecordatorio(id)), rs)
    ensures var r := EliminarRecordatorio(rs, id, usuarioId);
            r.respuesta.Ok? ==> |r.recordatorios| == |rs| - 1 && IdLibreR(r.recordatorios, id) && IdsUnicosR(r.recordatorios)
                                && r.recordatorios == Filter(rs, IdDistintoR(id))
  {
    var k := IndicePropio(rs, id, usuarioId);
    if k >= 0 {
      QuitarRecordatorio(rs, k);
    }
  }

  /** Removing the reminder at k, with ids unique, frees its id, keeps the
      others unique and is filtering out that id. */
  lemma QuitarRecordatorio(rs: seq<Recordatorio>, k: int)
    requires IdsUnicosR(rs) && 0 <= k < |rs|
    ensures var r := rs[..k] + rs[k + 1..];
            |r| == |rs| - 1 && IdLibreR(r, rs[k].id) && IdsUnicosR(r) && r == Filter(rs, IdDistintoR(rs[k].id))
  {
    var id := rs[k].id;
    var r := rs[..k] + rs[k + 1..];
    assert IdLibreR(r, id) by {
      forall i | 0 <= i < |r| ensures r[i].id != id {
        if i >= k { assert r[i] == rs[i + 1]; } else { assert r[i] == rs[i]; }
      }
    }
    assert IdsUnicosR(r) by {
      forall i, j | 0 <= i < j < |r| ensures r[i].id != r[j].id {
        var a := if i < k then i else i + 1;
        var b := if j < k then j else j + 1;
        assert r[i] == rs[a] && r[j] == rs[b];
      }
    }
    assert r == Filter(rs, IdDistintoR(id)) by {
      forall j | 0 <= j < |rs| && j != k ensures IdDistintoR(id)(rs[j]) {
        if j < k { assert rs[j].id != rs[k].id; } else { assert rs[k].id != rs[j].id; }
      }
      FilterQuitaUno(rs, IdDistintoR(id), k);
    }
  }

  /** The two collections. */
  class NotificationStore {
    var notificaciones: seq<Notificacion>
    var recordatorios: seq<Recordatorio>

    ghost predicate Valid()
      reads this
    {
      IdsUnicosN(notificaciones) && IdsUnicosR(recordatorios)
    }

    constructor ()
      ensures Valid() && notificaciones == [] && recordatorios == []
    {
      notificaciones := [];
      recordatorios := [];
    }

    /** `listar_notificaciones`. */
    function Listar(usuarioId: Id, estado: Option<EstadoNotificacion>, tipo: Option<TipoNotificacion>): (r: seq<Notificacion>)
      reads this
      ensures r == ListarNotificaciones(notificaciones, usuarioId, estado, tipo)
      ensures |r| <= MAX_LISTADO && forall i :: 0 <= i < |r| ==> r[i] in notificaciones && r[i].usuarioId == usuarioId
    {
      ListarNotificacionesCorrecto(notificaciones, usuarioId, estado, tipo);
      ListarNotificaciones(notificaciones, usuarioId, estado, tipo)
    }

    /** `crear_notificacion`. */
    method Crear(documentos: seq<Documento>, cuerpo: NuevaNotificacion, nuevoId: Id, usuarioId: Id, ahora: int)
      returns (r: Result<Notificacion>)
      requires Valid() && IdLibreN(notificaciones, nuevoId)
      modifies this
      ensures Valid() && recordatorios == old(recordatorios)
      ensures r == CrearNotificacion(old(notificaciones), documentos, cuerpo, nuevoId, usuarioId, ahora).respuesta
      ensures notificaciones == CrearNotificacion(old(notificaciones), documentos, cuerpo, nuevoId, usuarioId, ahora).notificaciones
    {
      if cuerpo.documentoId.Some? && cuerpo.documentoId.value != [] {
        var documento := DocumentoPorId(documentos, cuerpo.documentoId.value);
        if documento.None? {
          return Err(DocumentoNoEncontrado(cuerpo.documentoId.value));
        }
      }
      var notificacion := RegistroNotificacion(cuerpo, nuevoId, usuarioId, ahora);
      notificaciones := notificaciones + [notificacion];
      r := Ok(notificacion);
    }

    /** `marcar_notificacion_como_leida`. */
    method MarcarComoLeida(notificacionId: Id, usuarioId: Id, ahora: int) returns (r: Result<Id>)
      requires Valid()
      modifies this
      ensures Valid() && recordatorios == old(recordatorios)
      ensures r == MarcarLeida(old(notificaciones), notificacionId, usuarioId, ahora).respuesta
      ensures notificaciones == MarcarLeida(old(notificaciones), notificacionId, usuarioId, ahora).notificaciones
    {
      var k := IndiceN(notificaciones, notificacionId);
      if k < 0 || notificaciones[k].usuarioId != usuarioId {
        return Err(ErrorNotificacion(notificacionId));
      }
      notificaciones := notificaciones[k := Leida(notificaciones[k], ahora)];
      r := Ok(notificacionId);
    }

    /** `marcar_todas_notificaciones_como_leidas`: the count it reports. */
    method MarcarTodasComoLeidas(usuarioId: Id, ahora: int) returns (modificadas: nat)
      requires Valid()
      modifies this
      ensures Valid() && recordatorios == old(recordatorios)
      ensures modificadas == Count(old(notificaciones), NoLeidaDe(usuarioId))
      ensures notificaciones == MarcarTodas(old(notificaciones), usuarioId, ahora)
    {
      modificadas := Count(notificaciones, NoLeidaDe(usuarioId));
      notificaciones := MarcarTodas(notificaciones, usuarioId, ahora);
    }

    /** `crear_recordatorio`. */
    method CrearRecordatorioEn(documentos: seq<Documento>, config: ConfiguracionRecordatorio, nuevoId: Id,
                               usuarioId: Id, ahora: int) returns (r: Result<Recordatorio>)
      requires Valid() && IdLibreR(recordatorios, nuevoId)
      modifies this
      ensures Valid() && notificaciones == old(notificaciones)
      ensures r == CrearRecordatorio(old(recordatorios), documentos, config, nuevoId, usuarioId, ahora).respuesta
      ensures recordatorios == CrearRecordatorio(old(recordatorios), documentos, config, nuevoId, usuarioId, ahora).recordatorios
    {
      var documento := DocumentoPorId(documentos, config.documentoId);
      if documento.None? {
        return Err(DocumentoNoEncontrado(config.documentoId));
      }
      if config.fechaRecordatorio <= ahora {
        return Err(ERROR_FECHA_PASADA);
      }
      var recordatorio := RegistroRecordatorio(config, nuevoId, usuarioId, ahora);
      recordatorios := recordatorios + [recordatorio];
      r := Ok(recordatorio);
    }

    /** `listar_recordatorios`. */
    function ListarRecordatoriosDe(usuarioId: Id, activo: Option<bool>, documentoId: Option<string>): (r: seq<Recordatorio>)
      reads this
      ensures r == ListarRecordatorios(recordatorios, usuarioId, activo, documentoId)
      ensures |r| <= MAX_LISTADO && forall i :: 0 <= i < |r| ==> r[i] in recordatorios && r[i].usuarioId == usuarioId
    {
      ListarRecordatoriosCorrecto(recordatorios, usuarioId, activo, documentoId);
      ListarRecordatorios(recordatorios, usuarioId, activo, documentoId)
    }

    /** The chain of `if` statements of `actualizar_recordatorio`, which
        builds the `actualizacion` document one given field at a time and
        refuses a past date as soon as it meets one. */
    static method ConstruirActualizacion(original: Recordatorio, cambios: CambiosRecordatorio, ahora: int)
      returns (r: Result<Recordatorio>)
      ensures r == Actualizacion(original, cambios, ahora)
    {
      var actualizacion := CambiosRecordatorio(None, None, None, None, None, None, None, None);
      if cambios.titulo.Some? {
        actualizacion := actualizacion.(titulo := cambios.titulo);
      }
      if cambios.mensaje.Some? {
        actualizacion := actualizacion.(mensaje := cambios.mensaje);
      }
      if cambios.fechaProgramada.Some? {
        if cambios.fechaProgramada.value <= ahora {
          return Err(ERROR_FECHA_PASADA);
        }
        actualizacion := actualizacion.(fechaProgramada := cambios.fechaProgramada);
      }
      if cambios.repetir.Some? {
        actualizacion := actualizacion.(repetir := cambios.repetir);
      }
      if cambios.intervaloRepeticion.Some? {
        actualizacion := actualizacion.(intervaloRepeticion := cambios.intervaloRepeticion);
      }
      if cambios.activo.Some? {
        actualizacion := actualizacion.(activo := cambios.activo);
      }
      if cambios.enviarEmail.Some? {
        actualizacion := actualizacion.(enviarEmail := cambios.enviarEmail);
      }
      if cambios.emailDestino.Some? {
        actualizacion := actualizacion.(emailDestino := cambios.emailDestino);
      }
      if SinCambios(actualizacion) {
        return Err(ERROR_SIN_CAMBIOS);
      }
      r := Ok(AplicarCambios(original, actualizacion));
    }

    /** `actualizar_recordatorio`. */
    method Actualizar(recordatorioId: Id, usuarioId: Id, cambios: CambiosRecordatorio, ahora: int)
      returns (r: Result<Recordatorio>)
      requires Valid()
      modifies this
      ensures Valid() && notificaciones == old(notificaciones)
      ensures r == ActualizarRecordatorio(old(recordatorios), recordatorioId, usuarioId, cambios, ahora).respuesta
      ensures recordatorios == ActualizarRecordatorio(old(recordatorios), recordatorioId, usuarioId, cambios, ahora).recordatorios
    {
      var k := IndicePropio(recordatorios, recordatorioId, usuarioId);
      if k < 0 {
        return Err(ErrorRecordatorio(recordatorioId));
      }
      r := ConstruirActualizacion(recordatorios[k], cambios, ahora);
      if r.Ok? {
        recordatorios := recordatorios[k := r.value];
      }
    }

    /** `eliminar_recordatorio`. */
    method Eliminar(recordatorioId: Id, usuarioId: Id) returns (r: Result<Id>)
      requires Valid()
      modifies this
      ensures Valid() && notificaciones == old(notificaciones)
      ensures r == EliminarRecordatorio(old(recordatorios), recordatorioId, usuarioId).respuesta
      ensures recordatorios == EliminarRecordatorio(old(recordatorios), recordatorioId, usuarioId).recordatorios
    {
      EliminarRecordatorioCorrecto(recordatorios, recordatorioId, usuarioId);
      var k := IndicePropio(recordatorios, recordatorioId, usuarioId);
      if k < 0 {
        return Err(ErrorRecordatorio(recordatorioId));
      }
      recordatorios := recordatorios[..k] + recordatorios[k + 1..];
      r := Ok(recordatorioId);
    }
  }
}
