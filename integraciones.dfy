/** routes/integraciones.py: cloud integration settings, simulated
    synchronisation, export and dashboard statistics. The caller's id, the
    clock (whole seconds), the simulated cloud id's random part and fresh ids
    are parameters. */
module Integraciones {
  import opened Common
  import opened Seqs
  import opened Text
  import opened Modelos

  /** `to_list(10)` of the configuration listing and `to_list(50)` of the
      synchronisation history. */
  const MAX_CONFIGURACIONES: nat := 10
  const MAX_SINCRONIZACIONES: nat := 50
  /** `timedelta(hours=24)` in seconds. */
  const UN_DIA: nat := 86400
  /** How much of an access token a listing still shows. */
  const LARGO_VISIBLE: nat := 10
  const NO_CONFIGURADO := "No configurado"

  const FORMATOS_VALIDOS: seq<string> := ["pdf", "docx", "txt", "csv", "xml", "json"]
  const ERROR_FORMATO := HttpError(400, "Formato no soportado. Formatos válidos: " + Join(", ", FORMATOS_VALIDOS))

  /** A provider as its string value renders it. */
  function ProveedorTexto(p: ProveedorNube): string
  {
    match p
    case GOOGLE_DRIVE => "google_drive"
    case DROPBOX => "dropbox"
    case ONEDRIVE => "onedrive"
    case OTRO => "otro"
  }


  function ErrorSinConfiguracion(p: ProveedorNube): HttpError
  {
    HttpError(404, "No se ha configurado la integración con " + ProveedorTexto(p) + ". Configure primero la integración.")
  }

  // --- configurations

  /** A stored `integraciones_nube` document. */
  datatype ConfiguracionGuardada = ConfiguracionGuardada(
    id: Id, usuarioId: Id, proveedor: ProveedorNube, tokenAcceso: string, carpetaId: Option<string>,
    sincronizacionAutomatica: bool, intervaloSincronizacion: Option<int>, fechaActualizacion: int)

  function DeUsuario(usuarioId: Id): ConfiguracionGuardada -> bool
  {
    (c: ConfiguracionGuardada) => c.usuarioId == usuarioId
  }

  function DeUsuarioYProveedor(usuarioId: Id, p: ProveedorNube): ConfiguracionGuardada -> bool
  {
    (c: ConfiguracionGuardada) => c.usuarioId == usuarioId && c.proveedor == p
  }

  /** The invariant the upsert keeps: one configuration per user and
      provider, and distinct ids. */
  ghost predicate UnaPorProveedor(cs: seq<ConfiguracionGuardada>)
  {
    forall i, j :: 0 <= i < j < |cs| ==>
      cs[i].id != cs[j].id && (cs[i].usuarioId != cs[j].usuarioId || cs[i].proveedor != cs[j].proveedor)
  }

  predicate IdLibreC(cs: seq<ConfiguracionGuardada>, id: Id)
  {
    forall i :: 0 <= i < |cs| ==> cs[i].id != id
  }

  /** `config_doc` under a given `_id`. */
  function Guardada(c: ConfiguracionIntegracion, id: Id, usuarioId: Id, ahora: int): ConfiguracionGuardada
  {
    ConfiguracionGuardada(id, usuarioId, c.proveedor, c.tokenAcceso, c.carpetaId, c.sincronizacionAutomatica,
                          c.intervaloSincronizacion, ahora)
  }

  datatype Configuracion = Configuracion(mensaje: string, configuraciones: seq<ConfiguracionGuardada>)

  /** `configurar_integracion_nube`: overwrite the caller's configuration for
      that provider, or insert one. */
  function Configurar(cs: seq<ConfiguracionGuardada>, c: ConfiguracionIntegracion, usuarioId: Id, nuevoId: Id,
                      ahora: int): Configuracion
  {
    var k := Primero(cs, DeUsuarioYProveedor(usuarioId, c.proveedor));
    if k >= 0 then
      Configuracion("Configuración para " + ProveedorTexto(c.proveedor) + " actualizada exitosamente",
                    cs[k := Guardada(c, cs[k].id, usuarioId, ahora)])
    else
      Configuracion("Configuración para " + ProveedorTexto(c.proveedor) + " guardada exitosamente",
                    cs + [Guardada(c, nuevoId, usuarioId, ahora)])
  }

  /** The upsert keeps one configuration per user and provider; afterwards the
      caller's configuration for that provider is exactly once there and holds
      the new settings; the message says whether one existed; every other
      configuration is kept. */
  lemma ConfigurarCorrecto(cs: seq<ConfiguracionGuardada>, c: ConfiguracionIntegracion, usuarioId: Id, nuevoId: Id,
                           ahora: int)
    requires UnaPorProveedor(cs) && IdLibreC(cs, nuevoId)
    ensures var r := Configurar(cs, c, usuarioId, nuevoId, ahora).configuraciones;
            UnaPorProveedor(r)
            && Count(r, DeUsuarioYProveedor(usuarioId, c.proveedor)) == 1
            && var k := Primero(r, DeUsuarioYProveedor(usuarioId, c.proveedor));
               k >= 0 && r[k].tokenAcceso == c.tokenAcceso && r[k].carpetaId == c.carpetaId
               && r[k].sincronizacionAutomatica == c.sincronizacionAutomatica
               && r[k].intervaloSincronizacion == c.intervaloSincronizacion && r[k].fechaActualizacion == ahora
    ensures var r := Configurar(cs, c, usuarioId, nuevoId, ahora).configuraciones;
            forall i :: 0 <= i < |cs| && !DeUsuarioYProveedor(usuarioId, c.proveedor)(cs[i]) ==> cs[i] in r
    ensures var existia := Primero(cs, DeUsuarioYProveedor(usuarioId, c.proveedor)) >= 0;
            Configurar(cs, c, usuarioId, nuevoId, ahora).mensaje ==
              "Configuración para " + ProveedorTexto(c.proveedor) + (if existia then " actualizada exitosamente" else " guardada exitosamente")
  {
    var p := DeUsuarioYProveedor(usuarioId, c.proveedor);
    var k := Primero(cs, p);
    var r := Configurar(cs, c, usuarioId, nuevoId, ahora).configuraciones;
    if k >= 0 {
      assert r == cs[k := Guardada(c, cs[k].id, usuarioId, ahora)];
      ConfigurarExistente(cs, c, usuarioId, ahora, k);
      forall i | 0 <= i < |cs| && !p(cs[i]) ensures cs[i] in r {
        assert i != k && r[i] == cs[i];
      }
    } else {
      assert r == cs + [Guardada(c, nuevoId, usuarioId, ahora)];
      ConfigurarNueva(cs, c, usuarioId, nuevoId, ahora);
      forall i | 0 <= i < |cs| && !p(cs[i]) ensures cs[i] in r {
        assert r[i] == cs[i];
      }
    }
  }

  lemma ConfigurarExistente(cs: seq<ConfiguracionGuardada>, c: ConfiguracionIntegracion, usuarioId: Id, ahora: int, k: int)
    requires UnaPorProveedor(cs) && k == Primero(cs, DeUsuarioYProveedor(usuarioId, c.proveedor)) && k >= 0
    ensures var r := cs[k := Guardada(c, cs[k].id, usuarioId, ahora)];
            UnaPorProveedor(r) && Count(r, DeUsuarioYProveedor(usuarioId, c.proveedor)) == 1
            && Primero(r, DeUsuarioYProveedor(usuarioId, c.proveedor)) == k
  {
    var p := DeUsuarioYProveedor(usuarioId, c.proveedor);
    var r := cs[k := Guardada(c, cs[k].id, usuarioId, ahora)];
    forall i | 0 <= i < |r| && i != k ensures !p(r[i]) {
      assert r[i] == cs[i];
      if i > k { assert !(cs[k].usuarioId == cs[i].usuarioId && cs[k].proveedor == cs[i].proveedor); }
    }
    UnicoQueCumple(r, p, k);
    forall a, b | 0 <= a < b < |r|
      ensures r[a].id != r[b].id && (r[a].usuarioId != r[b].usuarioId || r[a].proveedor != r[b].proveedor)
    {
      assert cs[a].id != cs[b].id;
      if a == k { assert !p(r[b]); } else if b == k { assert !p(r[a]); }
    }
  }

  lemma ConfigurarNueva(cs: seq<ConfiguracionGuardada>, c: ConfiguracionIntegracion, usuarioId: Id, nuevoId: Id, ahora: int)
    requires UnaPorProveedor(cs) && IdLibreC(cs, nuevoId) && Primero(cs, DeUsuarioYProveedor(usuarioId, c.proveedor)) < 0
    ensures var r := cs + [Guardada(c, nuevoId, usuarioId, ahora)];
            UnaPorProveedor(r) && Count(r, DeUsuarioYProveedor(usuarioId, c.proveedor)) == 1
            && Primero(r, DeUsuarioYProveedor(usuarioId, c.proveedor)) == |cs|
  {
    var p := DeUsuarioYProveedor(usuarioId, c.proveedor);
    var g := Guardada(c, nuevoId, usuarioId, ahora);
    var r := cs + [g];
    forall i | 0 <= i < |r| && i != |cs| ensures !p(r[i]) {
      assert r[i] == cs[i];
    }
    UnicoQueCumple(r, p, |cs|);
    forall a, b | 0 <= a < b < |r|
      ensures r[a].id != r[b].id && (r[a].usuarioId != r[b].usuarioId || r[a].proveedor != r[b].proveedor)
    {
      assert r[a] == cs[a];
      if b == |cs| {
        assert r[b] == g && !p(r[a]) && cs[a].id != nuevoId;
      } else {
        assert r[b] == cs[b];
      }
    }
  }

  /** The access token as a listing shows it: never more than ten of its
      characters, and a configured token never reads as "No configurado". */
  function Enmascarar(token: string): (r: string)
    ensures token == [] ==> r == NO_CONFIGURADO
    ensures token != [] ==> r == token[..Min(LARGO_VISIBLE, |token|)] + "..."
    ensures token != [] ==> |r| <= LARGO_VISIBLE + 3 && r != NO_CONFIGURADO && r[..|r| - 3] <= token
  {
    if token != [] then token[..Min(LARGO_VISIBLE, |token|)] + "..." else NO_CONFIGURADO
  }

  /** What `listar_configuraciones_nube` returns: the caller's first ten
      configurations with their tokens masked. */
  function ConfiguracionesVisibles(cs: seq<ConfiguracionGuardada>, usuarioId: Id): seq<ConfiguracionGuardada>
  {
    var propias := Take(Filter(cs, DeUsuario(usuarioId)), MAX_CONFIGURACIONES);
    seq(|propias|, i requires 0 <= i < |propias| => propias[i].(tokenAcceso := Enmascarar(propias[i].tokenAcceso)))
  }

  /** A listing shows the caller's first min(10, theirs) configurations in
      stored order, each with its token masked, and nobody else's. */
  lemma ConfiguracionesVisiblesCorrecto(cs: seq<ConfiguracionGuardada>, usuarioId: Id)
    ensures var r := ConfiguracionesVisibles(cs, usuarioId);
            var m := Filter(cs, DeUsuario(usuarioId));
            |r| == Min(MAX_CONFIGURACIONES, |m|)
            && forall i :: 0 <= i < |r| ==> r[i] == m[i].(tokenAcceso := Enmascarar(m[i].tokenAcceso))
    ensures var r := ConfiguracionesVisibles(cs, usuarioId);
            |r| <= MAX_CONFIGURACIONES
            && forall i :: 0 <= i < |r| ==>
                 r[i].usuarioId == usuarioId
                 && (exists j :: 0 <= j < |cs| && r[i] == cs[j].(tokenAcceso := Enmascarar(cs[j].tokenAcceso)))
  {
    var propias := Take(Filter(cs, DeUsuario(usuarioId)), MAX_CONFIGURACIONES);
    var r := ConfiguracionesVisibles(cs, usuarioId);
    FilterMembers(cs, DeUsuario(usuarioId));
    forall i | 0 <= i < |r|
      ensures r[i].usuarioId == usuarioId
      ensures exists j :: 0 <= j < |cs| && r[i] == cs[j].(tokenAcceso := Enmascarar(cs[j].tokenAcceso))
    {
      assert propias[i] == Filter(cs, DeUsuario(usuarioId))[i];
      assert propias[i] in cs;
      var j :| 0 <= j < |cs| && cs[j] == propias[i];
      assert r[i] == cs[j].(tokenAcceso := Enmascarar(cs[j].tokenAcceso));
    }
  }

  /** A masked token never shows more than its first ten characters. */
  lemma EnmascararOculta(token: string)
    ensures var m := Enmascarar(token);
            m == NO_CONFIGURADO || (4 <= |m| <= LARGO_VISIBLE + 3 && m[..|m| - 3] == token[..|m| - 3] && m[|m| - 3..] == "...")
  {
  }

  // --- synchronisation

  /** A stored `sincronizaciones` document. */
  datatype Sincronizacion = Sincronizacion(
    usuarioId: Id, proveedor: ProveedorNube, documentoId: Id, documentoNombre: string, idEnNube: string,
    urlEnNube: string, estado: EstadoSincronizacion, ultimaSincronizacion: int, proximaSincronizacion: Option<int>)

  /** The upsert's filter. */
  function MismoRegistro(usuarioId: Id, documentoId: Id, p: ProveedorNube): Sincronizacion -> bool
  {
    (s: Sincronizacion) => s.usuarioId == usuarioId && s.documentoId == documentoId && s.proveedor == p
  }

  ghost predicate UnoPorDocumento(ss: seq<Sincronizacion>)
  {
    forall i, j :: 0 <= i < j < |ss| ==>
      !(ss[i].usuarioId == ss[j].usuarioId && ss[i].documentoId == ss[j].documentoId && ss[i].proveedor == ss[j].proveedor)
  }

  function UrlBase(p: ProveedorNube): string
  {
    match p
    case GOOGLE_DRIVE => "https://drive.google.com/file/d/"
    case DROPBOX => "https://www.dropbox.com/s/"
    case ONEDRIVE => "https://1drv.ms/"
    case OTRO => "https://cloud.example.com/"
  }

  /** `f"{proveedor}_{int(time.time())}_{random.randint(1000, 9999)}"`. */
  function IdEnNube(p: ProveedorNube, segundos: nat, azar: nat): string
  {
    ProveedorTexto(p) + "_" + NatToString(segundos) + "_" + NatToString(azar)
  }

  function UrlEnNube(p: ProveedorNube, idEnNube: string): string
  {
    UrlBase(p) + idEnNube + "/view"
  }

  /** The URL is the provider's base, the cloud id and "/view", and tells the
      providers apart. */
  lemma UrlEnNubeCorrecto(p: ProveedorNube, q: ProveedorNube, id: string, id2: string)
    ensures var u := UrlEnNube(p, id);
            |u| >= |UrlBase(p)| + 5 && u[..|UrlBase(p)|] == UrlBase(p) && u[|u| - 5..] == "/view"
            && u[|UrlBase(p)|..|u| - 5] == id
    ensures p != q ==> UrlEnNube(p, id) != UrlEnNube(q, id2)
  {
    var u := UrlEnNube(p, id);
    assert u[..|UrlBase(p)|] == UrlBase(p);
    if p != q {
      var v := UrlEnNube(q, id2);
      assert u[..9] == UrlBase(p)[..9] && v[..9] == UrlBase(q)[..9];
      assert UrlBase(p)[8] != UrlBase(q)[8] || UrlBase(p)[12] != UrlBase(q)[12];
      assert u[..13] == UrlBase(p)[..13] && v[..13] == UrlBase(q)[..13];
    }
  }

  datatype RespuestaSincronizacion = RespuestaSincronizacion(
    mensaje: string, idEnNube: string, urlEnNube: string, estado: EstadoSincronizacion)

  datatype Sincronizado = Sincronizado(respuesta: Result<RespuestaSincronizacion>, sincronizaciones: seq<Sincronizacion>)

  /** `sincronizar_documento`: the document, then the caller's configuration
      for the provider, then the upsert keyed by (user, document, provider). */
  function Sincronizar(docs: seq<Documento>, cs: seq<ConfiguracionGuardada>, ss: seq<Sincronizacion>, documentoId: Id,
                       p: ProveedorNube, usuarioId: Id, ahora: nat, azar: nat): Sincronizado
  {
    var documento := DocumentoPorId(docs, documentoId);
    var k := Primero(cs, DeUsuarioYProveedor(usuarioId, p));
    if documento.None? then Sincronizado(Err(DocumentoNoEncontrado(documentoId)), ss)
    else if k < 0 then Sincronizado(Err(ErrorSinConfiguracion(p)), ss)
    else
      var id := IdEnNube(p, ahora, azar);
      var registro := Sincronizacion(usuarioId, p, documentoId, documento.value.titulo, id, UrlEnNube(p, id), COMPLETADO,
                                     ahora, if cs[k].sincronizacionAutomatica then Some(ahora + UN_DIA) else None);
      var j := Primero(ss, MismoRegistro(usuarioId, documentoId, p));
      Sincronizado(Ok(RespuestaSincronizacion("Documento sincronizado con " + ProveedorTexto(p), id, UrlEnNube(p, id), COMPLETADO)),
                   if j >= 0 then ss[j := registro] else ss + [registro])
  }

  /** Both 404s leave the history unchanged; a success records a completed
      synchronisation exactly once for (user, document, provider), named after
      the document, under the cloud id built from the provider, the time and
      the random draw, next due a day later only under automatic
      synchronisation, and keeps every other record. */
  lemma SincronizarCorrecto(docs: seq<Documento>, cs: seq<ConfiguracionGuardada>, ss: seq<Sincronizacion>, documentoId: Id,
                            p: ProveedorNube, usuarioId: Id, ahora: nat, azar: nat)
    requires UnoPorDocumento(ss)
    ensures var r := Sincronizar(docs, cs, ss, documentoId, p, usuarioId, ahora, azar);
            r.respuesta.Err? ==> r.sincronizaciones == ss
    ensures DocumentoPorId(docs, documentoId).None? ==>
              Sincronizar(docs, cs, ss, documentoId, p, usuarioId, ahora, azar).respuesta == Err(DocumentoNoEncontrado(documentoId))
    ensures DocumentoPorId(docs, documentoId).Some? ==>
              (Sincronizar(docs, cs, ss, documentoId, p, usuarioId, ahora, azar).respuesta.Ok?
               <==> exists i :: 0 <= i < |cs| && cs[i].usuarioId == usuarioId && cs[i].proveedor == p)
    ensures var r := Sincronizar(docs, cs, ss, documentoId, p, usuarioId, ahora, azar);
            r.respuesta.Ok? ==>
              var s := r.sincronizaciones;
              var k := Primero(s, MismoRegistro(usuarioId, documentoId, p));
              UnoPorDocumento(s) && k >= 0 && Count(s, MismoRegistro(usuarioId, documentoId, p)) == 1
              && s[k].estado == COMPLETADO && s[k].ultimaSincronizacion == ahora
              && s[k].documentoNombre == DocumentoPorId(docs, documentoId).value.titulo
              && s[k].idEnNube == r.respuesta.value.idEnNube == IdEnNube(p, ahora, azar)
              && s[k].urlEnNube == r.respuesta.value.urlEnNube == UrlEnNube(p, s[k].idEnNube)
              && r.respuesta.value.mensaje == "Documento sincronizado con " + ProveedorTexto(p)
              && r.respuesta.value.estado == COMPLETADO
              && (s[k].proximaSincronizacion.Some? <==> cs[Primero(cs, DeUsuarioYProveedor(usuarioId, p))].sincronizacionAutomatica)
              && (s[k].proximaSincronizacion.Some? ==> s[k].proximaSincronizacion.value == ahora + UN_DIA)
              && forall i :: 0 <= i < |ss| && !MismoRegistro(usuarioId, documentoId, p)(ss[i]) ==> ss[i] in s
  {
    var r := Sincronizar(docs, cs, ss, documentoId, p, usuarioId, ahora, azar);
    if DocumentoPorId(docs, documentoId).Some? && Primero(cs, DeUsuarioYProveedor(usuarioId, p)) >= 0 {
      var j := Primero(ss, MismoRegistro(usuarioId, documentoId, p));
      var documento := DocumentoPorId(docs, documentoId).value;
      var c := cs[Primero(cs, DeUsuarioYProveedor(usuarioId, p))];
      var id := IdEnNube(p, ahora, azar);
      var x := Sincronizacion(usuarioId, p, documentoId, documento.titulo, id, UrlEnNube(p, id), COMPLETADO,
                              ahora, if c.sincronizacionAutomatica then Some(ahora + UN_DIA) else None);
      RegistrarSincronizacion(ss, usuarioId, documentoId, p, j, x);
    }
  }

  /** The upsert keyed by (user, document, provider). */
  lemma RegistrarSincronizacion(ss: seq<Sincronizacion>, usuarioId: Id, documentoId: Id, p: ProveedorNube, j: int,
                                x: Sincronizacion)
    requires UnoPorDocumento(ss) && j == Primero(ss, MismoRegistro(usuarioId, documentoId, p))
    requires MismoRegistro(usuarioId, documentoId, p)(x)
    ensures var s := if j >= 0 then ss[j := x] else ss + [x];
            UnoPorDocumento(s) && Count(s, MismoRegistro(usuarioId, documentoId, p)) == 1
            && Primero(s, MismoRegistro(usuarioId, documentoId, p)) == (if j >= 0 then j else |ss|)
            && forall i :: 0 <= i < |ss| && !MismoRegistro(usuarioId, documentoId, p)(ss[i]) ==> ss[i] in s
  {
    var f := MismoRegistro(usuarioId, documentoId, p);
    var s := if j >= 0 then ss[j := x] else ss + [x];
    var k := if j >= 0 then j else |ss|;
    forall i | 0 <= i < |s| && i != k ensures !f(s[i]) && s[i] == ss[i] {
      if j >= 0 && i > j {
        assert !(ss[j].usuarioId == ss[i].usuarioId && ss[j].documentoId == ss[i].documentoId && ss[j].proveedor == ss[i].proveedor);
      }
    }
    UnicoQueCumple(s, f, k);
    forall a, b | 0 <= a < b < |s|
      ensures !(s[a].usuarioId == s[b].usuarioId && s[a].documentoId == s[b].documentoId && s[a].proveedor == s[b].proveedor)
    {
      if a != k && b != k {
        assert s[a] == ss[a] && s[b] == ss[b];
      } else if a == k {
        assert !f(s[b]) && f(s[a]);
      } else {
        assert !f(s[a]) && f(s[b]);
      }
    }
    forall i | 0 <= i < |ss| && !f(ss[i]) ensures ss[i] in s {
      assert i != k && s[i] == ss[i];
    }
  }

  function DeUsuarioYProveedorOpcional(usuarioId: Id, p: Option<ProveedorNube>): Sincronizacion -> bool
  {
    (s: Sincronizacion) => s.usuarioId == usuarioId && (p.Some? ==> s.proveedor == p.value)
  }

  function UltimaSincronizacion(s: Sincronizacion): real { s.ultimaSincronizacion as real }

  /** `listar_sincronizaciones`: the caller's history, optionally for one
      provider, latest first, 50 at most. */
  function ListarSincronizaciones(ss: seq<Sincronizacion>, usuarioId: Id, p: Option<ProveedorNube>): seq<Sincronizacion>
  {
    Listado(ss, DeUsuarioYProveedorOpcional(usuarioId, p), UltimaSincronizacion, MAX_SINCRONIZACIONES)
  }

  /** min(50, matches) of the caller's records, optionally of one provider,
      latest first; all of them when there are at most 50. */
  lemma ListarSincronizacionesCorrecto(ss: seq<Sincronizacion>, usuarioId: Id, p: Option<ProveedorNube>)
    ensures var r := ListarSincronizaciones(ss, usuarioId, p);
            var m := Filter(ss, DeUsuarioYProveedorOpcional(usuarioId, p));
            |r| == Min(MAX_SINCRONIZACIONES, |m|)
            && (forall i :: 0 <= i < |r| ==> r[i] in ss && r[i].usuarioId == usuarioId && (p.Some? ==> r[i].proveedor == p.value))
            && (forall i, j :: 0 <= i < j < |r| ==> r[i].ultimaSincronizacion >= r[j].ultimaSincronizacion)
    ensures var m := Filter(ss, DeUsuarioYProveedorOpcional(usuarioId, p));
            |m| <= MAX_SINCRONIZACIONES ==> multiset(ListarSincronizaciones(ss, usuarioId, p)) == multiset(m)
  {
    var f := DeUsuarioYProveedorOpcional(usuarioId, p);
    SortDescLength(Filter(ss, f), UltimaSincronizacion);
    ListadoMiembros(ss, f, UltimaSincronizacion, MAX_SINCRONIZACIONES);
    ListadoDescendente(ss, f, UltimaSincronizacion, MAX_SINCRONIZACIONES);
    var r := ListarSincronizaciones(ss, usuarioId, p);
    forall i | 0 <= i < |r| ensures r[i] in ss && r[i].usuarioId == usuarioId && (p.Some? ==> r[i].proveedor == p.value) {
      assert f(r[i]);
    }
    forall i, j | 0 <= i < j < |r| ensures r[i].ultimaSincronizacion >= r[j].ultimaSincronizacion {
      assert UltimaSincronizacion(r[i]) >= UltimaSincronizacion(r[j]);
    }
    if |Filter(ss, f)| <= MAX_SINCRONIZACIONES {
      ListadoCompleto(ss, f, UltimaSincronizacion, MAX_SINCRONIZACIONES);
    }
  }

  /** The history is drawn from the matches, and no match it leaves out is
      later than one it holds. */
  lemma ListarSincronizacionesMejores(ss: seq<Sincronizacion>, usuarioId: Id, p: Option<ProveedorNube>)
    ensures var r := ListarSincronizaciones(ss, usuarioId, p);
            var m := Filter(ss, DeUsuarioYProveedorOpcional(usuarioId, p));
            multiset(r) <= multiset(m)
            && forall x, y :: x in r && y in multiset(m) - multiset(r) ==> y.ultimaSincronizacion <= x.ultimaSincronizacion
  {
    var f := DeUsuarioYProveedorOpcional(usuarioId, p);
    ListadoMejores(ss, f, UltimaSincronizacion, MAX_SINCRONIZACIONES);
    var r := ListarSincronizaciones(ss, usuarioId, p);
    var m := Filter(ss, f);
    forall x: Sincronizacion, y: Sincronizacion | x in r && y in multiset(m) - multiset(r) ensures y.ultimaSincronizacion <= x.ultimaSincronizacion {
      assert UltimaSincronizacion(y) <= UltimaSincronizacion(x);
    }
  }

  // --- export

  /** A stored `exportaciones` document. */
  datatype Exportacion = Exportacion(usuarioId: Id, documentoId: Id, formato: string, fechaExportacion: int)

  function MediaType(formato: string): string
  {
    if formato == "json" then "application/json"
    else if formato == "pdf" then "application/pdf"
    else if formato == "docx" then "application/vnd.openxmlformats-officedocument.wordprocessingml.document"
    else if formato == "csv" then "text/csv"
    else if formato == "xml" then "application/xml"
    else "text/plain"
  }

  function NombreArchivo(titulo: string, formato: string): string
  {
    ReplaceChar(titulo, ' ', '_') + "." + Lower(formato)
  }

  datatype Descarga = Descarga(mediaType: string, nombreArchivo: string)

  /** Whether a string survives Starlette's latin-1 encoding of header values. */
  predicate Latin1(s: string)
  {
    forall i :: 0 <= i < |s| ==> s[i] as int <= 255
  }

  /** The file name is fit for the header exactly when the title is: the
      replaced spaces and the lower-case format are ASCII. */
  lemma NombreArchivoLatin1(titulo: string, formato: string)
    requires Lower(formato) in FORMATOS_VALIDOS
    ensures Latin1(NombreArchivo(titulo, formato)) <==> Latin1(titulo)
  {
    var n := NombreArchivo(titulo, formato);
    var t := ReplaceChar(titulo, ' ', '_');
    assert n == t + "." + Lower(formato);
    if Latin1(titulo) {
      forall i | 0 <= i < |n| ensures n[i] as int <= 255 {
        if i > |t| {
          assert n[i] == Lower(formato)[i - |t| - 1];
        }
      }
    }
    if Latin1(n) {
      forall i | 0 <= i < |titulo| ensures titulo[i] as int <= 255 {
        assert n[i] == t[i];
      }
    }
  }

  datatype Exportado = Exportado(respuesta: Result<Descarga>, exportaciones: seq<Exportacion>)

  /** `exportar_documento`. The caller is resolved only after the document and
      the format have passed, so `usuario` is the outcome of that resolution. */
  function Exportar(docs: seq<Documento>, es: seq<Exportacion>, e: DocumentoExportacion, usuario: Result<Id>,
                    ahora: int): Exportado
  {
    var documento := DocumentoPorId(docs, e.documentoId);
    var formato := Lower(e.formato);
    if documento.None? then Exportado(Err(DocumentoNoEncontrado(e.documentoId)), es)
    else if formato !in FORMATOS_VALIDOS then Exportado(Err(ERROR_FORMATO), es)
    else if usuario.Err? then Exportado(Err(usuario.error), es)
    else
      var registradas := es + [Exportacion(usuario.value, e.documentoId, formato, ahora)];
      var nombre := NombreArchivo(documento.value.titulo, e.formato);
      if !Latin1(nombre) then Exportado(Err(INTERNAL_ERROR), registradas)
      else Exportado(Ok(Descarga(MediaType(formato), nombre)), registradas)
  }

  /** The checks come in the source's order and an error found before the
      insert records nothing; past the insert, a title that latin-1 cannot
      encode makes the response headers fail, a 500 with the export already
      recorded; a success records one export in lower case and serves a file
      named after the title, without spaces, with the format as extension,
      and the media type the format's table gives. */
  lemma ExportarCorrecto(docs: seq<Documento>, es: seq<Exportacion>, e: DocumentoExportacion, usuario: Result<Id>, ahora: int)
    ensures DocumentoPorId(docs, e.documentoId).None? || Lower(e.formato) !in FORMATOS_VALIDOS || usuario.Err? ==>
              var r := Exportar(docs, es, e, usuario, ahora);
              r.respuesta.Err? && r.exportaciones == es
    ensures DocumentoPorId(docs, e.documentoId).None? ==> Exportar(docs, es, e, usuario, ahora).respuesta == Err(DocumentoNoEncontrado(e.documentoId))
    ensures DocumentoPorId(docs, e.documentoId).Some? && Lower(e.formato) !in FORMATOS_VALIDOS ==>
              Exportar(docs, es, e, usuario, ahora).respuesta == Err(ERROR_FORMATO)
    ensures DocumentoPorId(docs, e.documentoId).Some? && Lower(e.formato) in FORMATOS_VALIDOS && usuario.Err? ==>
              Exportar(docs, es, e, usuario, ahora).respuesta == Err(usuario.error)
    ensures Exportar(docs, es, e, usuario, ahora).respuesta.Ok? <==>
              DocumentoPorId(docs, e.documentoId).Some? && Lower(e.formato) in FORMATOS_VALIDOS && usuario.Ok?
              && Latin1(DocumentoPorId(docs, e.documentoId).value.titulo)
    ensures DocumentoPorId(docs, e.documentoId).Some? && Lower(e.formato) in FORMATOS_VALIDOS && usuario.Ok?
            && !Latin1(DocumentoPorId(docs, e.documentoId).value.titulo) ==>
              Exportar(docs, es, e, usuario, ahora)
                == Exportado(Err(INTERNAL_ERROR), es + [Exportacion(usuario.value, e.documentoId, Lower(e.formato), ahora)])
    ensures var r := Exportar(docs, es, e, usuario, ahora);
            r.respuesta.Ok? ==>
              var f := Lower(e.formato);
              var n := r.respuesta.value.nombreArchivo;
              var t := DocumentoPorId(docs, e.documentoId).value.titulo;
              r.exportaciones == es + [Exportacion(usuario.value, e.documentoId, f, ahora)]
              && n == ReplaceChar(t, ' ', '_') + "." + f
              && (forall i :: 0 <= i < |t| ==> n[i] != ' ')
              && r.respuesta.value.mediaType == MediaType(f)
              && (f == "json" <==> r.respuesta.value.mediaType == "application/json")
              && (f == "txt" <==> r.respuesta.value.mediaType == "text/plain")
              && (f == "pdf" <==> r.respuesta.value.mediaType == "application/pdf")
              && (f == "docx" <==> r.respuesta.value.mediaType == "application/vnd.openxmlformats-officedocument.wordprocessingml.document")
              && (f == "csv" <==> r.respuesta.value.mediaType == "text/csv")
              && (f == "xml" <==> r.respuesta.value.mediaType == "application/xml")
  {
    var d := DocumentoPorId(docs, e.documentoId);
    if d.Some? && Lower(e.formato) in FORMATOS_VALIDOS {
      NombreArchivoLatin1(d.value.titulo, e.formato);
    }
  }

  // --- statistics

  /** The keys a `$group` by a field yields whose key is not empty, and their
      counts. */
  function Grupos(docs: seq<Documento>, campo: Documento -> string): (r: map<string, nat>)
    ensures forall k :: k in r <==> k != [] && exists i :: 0 <= i < |docs| && campo(docs[i]) == k
  {
    if docs == [] then map[]
    else
      var resto := Grupos(docs[..|docs| - 1], campo);
      var k := campo(docs[|docs| - 1]);
      if k == [] then resto
      else resto[k := if k in resto then resto[k] + 1 else 1]
  }

  function ConCampo(campo: Documento -> string, k: string): Documento -> bool
  {
    (d: Documento) => campo(d) == k
  }

  /** Each group counts exactly the documents with that key. */
  lemma {:induction false} GruposCuenta(docs: seq<Documento>, campo: Documento -> string, k: string)
    requires k in Grupos(docs, campo)
    ensures Grupos(docs, campo)[k] == Count(docs, ConCampo(campo, k))
    decreases |docs|
  {
    var s := docs[..|docs| - 1];
    assert docs == s + [docs[|docs| - 1]];
    CountAppend(s, [docs[|docs| - 1]], ConCampo(campo, k));
    if k in Grupos(s, campo) {
      GruposCuenta(s, campo, k);
    } else {
      SinCumplir(s, ConCampo(campo, k));
      FilterLength(s, ConCampo(campo, k));
    }
  }

  function Categoria(d: Documento): string { d.categoria }
  function Idioma(d: Documento): string { d.idioma }

  datatype Estadisticas = Estadisticas(
    totalDocumentos: nat, documentosPorCategoria: map<string, nat>, documentosPorIdioma: map<string, nat>)

  /** The aggregated part of `obtener_estadisticas`. */
  function ObtenerEstadisticas(docs: seq<Documento>): Estadisticas
  {
    Estadisticas(|docs|, Grupos(docs, Categoria), Grupos(docs, Idioma))
  }

  /** The total counts every document, and both maps count, for each
      non-empty category or language present, the documents that have it. */
  lemma EstadisticasCorrecto(docs: seq<Documento>, k: string)
    ensures ObtenerEstadisticas(docs).totalDocumentos == |docs|
    ensures k in ObtenerEstadisticas(docs).documentosPorCategoria <==> k != [] && exists i :: 0 <= i < |docs| && docs[i].categoria == k
    ensures k in ObtenerEstadisticas(docs).documentosPorIdioma <==> k != [] && exists i :: 0 <= i < |docs| && docs[i].idioma == k
    ensures k in ObtenerEstadisticas(docs).documentosPorCategoria ==>
              ObtenerEstadisticas(docs).documentosPorCategoria[k] == Count(docs, ConCampo(Categoria, k))
    ensures k in ObtenerEstadisticas(docs).documentosPorIdioma ==>
              ObtenerEstadisticas(docs).documentosPorIdioma[k] == Count(docs, ConCampo(Idioma, k))
  {
    if k in Grupos(docs, Categoria) { GruposCuenta(docs, Categoria, k); }
    if k in Grupos(docs, Idioma) { GruposCuenta(docs, Idioma, k); }
  }

  /** The collections the router writes. */
  class IntegrationStore {
    var configuraciones: seq<ConfiguracionGuardada>
    var sincronizaciones: seq<Sincronizacion>
    var exportaciones: seq<Exportacion>

    ghost predicate Valid()
      reads this
    {
      UnaPorProveedor(configuraciones) && UnoPorDocumento(sincronizaciones)
    }

    constructor ()
      ensures Valid() && configuraciones == [] && sincronizaciones == [] && exportaciones == []
    {
      configuraciones := [];
      sincronizaciones := [];
      exportaciones := [];
    }

    /** `configurar_integracion_nube`. */
    method ConfigurarNube(configuracion: ConfiguracionIntegracion, usuarioId: Id, nuevoId: Id, ahora: int)
      returns (mensaje: string)
      requires Valid() && IdLibreC(configuraciones, nuevoId)
      modifies this
      ensures Valid() && sincronizaciones == old(sincronizaciones) && exportaciones == old(exportaciones)
      ensures mensaje == Configurar(old(configuraciones), configuracion, usuarioId, nuevoId, ahora).mensaje
      ensures configuraciones == Configurar(old(configuraciones), configuracion, usuarioId, nuevoId, ahora).configuraciones
    {
      ConfigurarCorrecto(configuraciones, configuracion, usuarioId, nuevoId, ahora);
      var k := Primero(configuraciones, DeUsuarioYProveedor(usuarioId, configuracion.proveedor));
      if k >= 0 {
        configuraciones := configuraciones[k := Guardada(configuracion, configuraciones[k].id, usuarioId, ahora)];
        mensaje := "Configuración para " + ProveedorTexto(configuracion.proveedor) + " actualizada exitosamente";
      } else {
        configuraciones := configuraciones + [Guardada(configuracion, nuevoId, usuarioId, ahora)];
        mensaje := "Configuración para " + ProveedorTexto(configuracion.proveedor) + " guardada exitosamente";
      }
    }

    /** `listar_configuraciones_nube`, masking each token in a loop. */
    method ListarConfiguraciones(usuarioId: Id) returns (r: seq<ConfiguracionGuardada>)
      ensures r == ConfiguracionesVisibles(configuraciones, usuarioId)
    {
      var propias := Take(Filter(configuraciones, DeUsuario(usuarioId)), MAX_CONFIGURACIONES);
      r := [];
      for i := 0 to |propias|
        invariant |r| == i
        invariant forall j :: 0 <= j < i ==> r[j] == propias[j].(tokenAcceso := Enmascarar(propias[j].tokenAcceso))
      {
        var config := propias[i];
        config := config.(tokenAcceso := if config.tokenAcceso != [] then config.tokenAcceso[..Min(LARGO_VISIBLE, |config.tokenAcceso|)] + "..." else NO_CONFIGURADO);
        r := r + [config];
      }
    }

    /** `sincronizar_documento`. */
    method SincronizarDocumento(documentos: seq<Documento>, documentoId: Id, proveedor: ProveedorNube, usuarioId: Id,
                                ahora: nat, azar: nat) returns (r: Result<RespuestaSincronizacion>)
      requires Valid()
      modifies this
      ensures Valid() && configuraciones == old(configuraciones) && exportaciones == old(exportaciones)
      ensures r == Sincronizar(documentos, old(configuraciones), old(sincronizaciones), documentoId, proveedor, usuarioId, ahora, azar).respuesta
      ensures sincronizaciones == Sincronizar(documentos, old(configuraciones), old(sincronizaciones), documentoId, proveedor, usuarioId, ahora, azar).sincronizaciones
    {
      SincronizarCorrecto(documentos, configuraciones, sincronizaciones, documentoId, proveedor, usuarioId, ahora, azar);
      var resultado := Sincronizar(documentos, configuraciones, sincronizaciones, documentoId, proveedor, usuarioId, ahora, azar);
      sincronizaciones := resultado.sincronizaciones;
      r := resultado.respuesta;
    }

    /** `exportar_documento`. */
    method ExportarDocumento(documentos: seq<Documento>, exportacion: DocumentoExportacion, usuario: Result<Id>, ahora: int)
      returns (r: Result<Descarga>)
      requires Valid()
      modifies this
      ensures Valid() && configuraciones == old(configuraciones) && sincronizaciones == old(sincronizaciones)
      ensures r == Exportar(documentos, old(exportaciones), exportacion, usuario, ahora).respuesta
      ensures exportaciones == Exportar(documentos, old(exportaciones), exportacion, usuario, ahora).exportaciones
    {
      var resultado := Exportar(documentos, exportaciones, exportacion, usuario, ahora);
      exportaciones := resultado.exportaciones;
      r := resultado.respuesta;
    }
  }
}
