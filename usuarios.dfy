/** routes/usuarios.py: the users collection and its handlers. The collection
    is a sequence in insertion order; a fresh `_id` is supplied by the caller,
    as MongoDB supplies it. */
module Usuarios {
  import opened Common
  import opened Seqs
  import opened Crypto
  import opened Modelos

  /** `find().to_list(1000)`. */
  const MAX_LISTADO: nat := 1000
  /** Registration makes the new user an ADMIN while fewer users than this exist. */
  const ADMINS_INICIALES: nat := 3

  const ERROR_CORREO_REGISTRADO := HttpError(400, "Correo ya registrado")
  const ERROR_CORREO_NO_ENCONTRADO := HttpError(404, "Usuario con ese correo no encontrado")

  function ErrorActualizar(id: Id): HttpError { HttpError(404, "usuario con id: " + id + " no encontrado") }
  function ErrorEliminar(id: Id): HttpError { HttpError(404, "usuario con id " + id + " no encontrado") }

  ghost predicate IdsUnicos(us: seq<Usuario>)
  {
    forall i, j :: 0 <= i < j < |us| ==> us[i].id != us[j].id
  }

  ghost predicate CorreosUnicos(us: seq<Usuario>)
  {
    forall i, j :: 0 <= i < j < |us| ==> us[i].correo != us[j].correo
  }

  predicate IdLibre(us: seq<Usuario>, id: Id)
  {
    forall i :: 0 <= i < |us| ==> us[i].id != id
  }

  /** The position of the first user with that id, or -1. */
  function Indice(us: seq<Usuario>, id: Id): (k: int)
    ensures -1 <= k < |us|
    ensures k >= 0 ==> us[k].id == id && forall j :: 0 <= j < k ==> us[j].id != id
    ensures k == -1 <==> IdLibre(us, id)
  {
    if us == [] then -1
    else if us[|us| - 1].id == id && Indice(us[..|us| - 1], id) == -1 then |us| - 1
    else Indice(us[..|us| - 1], id)
  }

  /** `obtener_usuarios`: the first 1000 users. */
  function ObtenerUsuarios(us: seq<Usuario>): (r: seq<Usuario>)
    ensures |r| == Min(MAX_LISTADO, |us|) && r == us[..|r|]
  {
    Take(us, MAX_LISTADO)
  }

  // --- registration (`guardar_usuario`)

  /** Whether the duplicate check of registration, which looks at the listed
      users only, sees the email. */
  predicate CorreoRegistrado(us: seq<Usuario>, correo: string)
  {
    exists i :: 0 <= i < |ObtenerUsuarios(us)| && ObtenerUsuarios(us)[i].correo == correo
  }

  /** The record registration inserts: the supplied fields, the password
      hashed, and ADMIN as role while fewer than 3 users exist. */
  function NuevoUsuario(us: seq<Usuario>, e: UsuarioEntrada, id: Id): Usuario
  {
    Usuario(id, e.nombres, e.apellidos, e.correo, Hash(e.contra), e.pais, e.ciudad, e.inactivo,
            if |ObtenerUsuarios(us)| < ADMINS_INICIALES then Some(ADMIN) else e.rol)
  }

  datatype Registro = Registro(respuesta: Result<UsuarioRespuesta>, usuarios: seq<Usuario>)

  function Registrar(us: seq<Usuario>, e: UsuarioEntrada, id: Id): Registro
  {
    if CorreoRegistrado(us, e.correo) then Registro(Err(ERROR_CORREO_REGISTRADO), us)
    else
      var u := NuevoUsuario(us, e, id);
      Registro(Ok(SinContra(u)), us + [u])
  }

  /** A listed duplicate is refused with the store unchanged; otherwise
      exactly one record is appended: the supplied fields, a hash that the
      supplied password verifies against, the role rule, and the answer is
      that record without its password. */
  lemma RegistrarCorrecto(us: seq<Usuario>, e: UsuarioEntrada, id: Id)
    ensures CorreoRegistrado(us, e.correo) ==> Registrar(us, e, id) == Registro(Err(ERROR_CORREO_REGISTRADO), us)
    ensures !CorreoRegistrado(us, e.correo) ==>
              var r := Registrar(us, e, id);
              |r.usuarios| == |us| + 1 && r.usuarios[..|us|] == us
              && var u := r.usuarios[|us|];
              u.id == id && u.nombres == e.nombres && u.apellidos == e.apellidos && u.correo == e.correo
              && u.pais == e.pais && u.ciudad == e.ciudad && u.inactivo == e.inactivo
              && Verify(e.contra, u.contra) == Match(true)
              && (|us| < ADMINS_INICIALES ==> u.rol == Some(ADMIN))
              && (|us| >= ADMINS_INICIALES ==> u.rol == e.rol)
              && r.respuesta == Ok(SinContra(u))
  {
    if !CorreoRegistrado(us, e.correo) {
      var r := Registrar(us, e, id);
      assert r.usuarios[..|us|] == us;
      VerifyHash(e.contra, e.contra);
    }
  }

  /** With at most 1000 users the duplicate check sees them all, so
      registration keeps emails unique (and ids, the new one being fresh). */
  lemma RegistrarUnicidad(us: seq<Usuario>, e: UsuarioEntrada, id: Id)
    requires |us| <= MAX_LISTADO
    requires CorreosUnicos(us) && IdsUnicos(us) && IdLibre(us, id)
    ensures CorreosUnicos(Registrar(us, e, id).usuarios) && IdsUnicos(Registrar(us, e, id).usuarios)
  {
    if !CorreoRegistrado(us, e.correo) {
      var r := Registrar(us, e, id).usuarios;
      assert ObtenerUsuarios(us) == us;
      forall i, j | 0 <= i < j < |r| ensures r[i].correo != r[j].correo && r[i].id != r[j].id {
        if j == |us| {
          assert r[i] == us[i];
        }
      }
    }
  }

  /** Past the first 1000 users the duplicate check is blind: an email held
      only by a later user is registered a second time. */
  lemma RegistrarPasadoElLimite(us: seq<Usuario>, e: UsuarioEntrada, id: Id)
    requires |us| > MAX_LISTADO && us[MAX_LISTADO].correo == e.correo
    requires forall i :: 0 <= i < MAX_LISTADO ==> us[i].correo != e.correo
    ensures var r := Registrar(us, e, id);
            r.respuesta.Ok? && !CorreosUnicos(r.usuarios)
  {
    var r := Registrar(us, e, id).usuarios;
    assert r[MAX_LISTADO] == us[MAX_LISTADO] && r[|us|].correo == e.correo;
  }

  // --- partial update (`actualizar_usuario`)

  /** The patch keeps the fields that are not None. */
  predicate PatchVacio(p: ActualizarUsuario)
  {
    p.nombres.None? && p.apellidos.None? && p.correo.None? && p.contra.None?
    && p.pais.None? && p.ciudad.None? && p.inactivo.None? && p.rol.None?
  }

  /** `$set` with the non-None fields; `contra` is written as given. */
  function AplicarPatch(u: Usuario, p: ActualizarUsuario): Usuario
  {
    Usuario(u.id, Sobre(p.nombres, u.nombres), Sobre(p.apellidos, u.apellidos), Sobre(p.correo, u.correo),
            if p.contra.Some? then Plain(p.contra.value) else u.contra,
            Sobre(p.pais, u.pais), Sobre(p.ciudad, u.ciudad),
            if p.inactivo.Some? then p.inactivo else u.inactivo,
            if p.rol.Some? then p.rol else u.rol)
  }

  /** A patch changes a field exactly as given and leaves every None field
      alone; an empty patch changes nothing; applying it twice is applying it
      once; a patched password is stored unhashed. */
  lemma AplicarPatchCorrecto(u: Usuario, p: ActualizarUsuario)
    ensures var v := AplicarPatch(u, p);
            v.id == u.id
            && (p.nombres.None? ==> v.nombres == u.nombres) && (p.nombres.Some? ==> v.nombres == p.nombres.value)
            && (p.apellidos.None? ==> v.apellidos == u.apellidos)
            && (p.apellidos.Some? ==> v.apellidos == p.apellidos.value)
            && (p.correo.None? ==> v.correo == u.correo) && (p.correo.Some? ==> v.correo == p.correo.value)
            && (p.pais.None? ==> v.pais == u.pais) && (p.pais.Some? ==> v.pais == p.pais.value)
            && (p.ciudad.None? ==> v.ciudad == u.ciudad) && (p.ciudad.Some? ==> v.ciudad == p.ciudad.value)
            && (p.contra.None? ==> v.contra == u.contra) && (p.contra.Some? ==> v.contra == Plain(p.contra.value))
            && (p.inactivo.None? ==> v.inactivo == u.inactivo) && (p.inactivo.Some? ==> v.inactivo == p.inactivo)
            && (p.rol.None? ==> v.rol == u.rol) && (p.rol.Some? ==> v.rol == p.rol)
    ensures PatchVacio(p) ==> AplicarPatch(u, p) == u
    ensures AplicarPatch(AplicarPatch(u, p), p) == AplicarPatch(u, p)
    ensures p.contra.Some? ==> Verify(p.contra.value, AplicarPatch(u, p).contra) == Unrecognised
  {
  }

  datatype Actualizacion = Actualizacion(respuesta: Result<Usuario>, usuarios: seq<Usuario>)

  /** 404 for a missing id; otherwise the first user with that id patched
      (unchanged for an empty patch) and returned. */
  function Actualizar(us: seq<Usuario>, id: Id, p: ActualizarUsuario): Actualizacion
  {
    var k := Indice(us, id);
    if k < 0 then Actualizacion(Err(ErrorActualizar(id)), us)
    else
      var v := if PatchVacio(p) then us[k] else AplicarPatch(us[k], p);
      Actualizacion(Ok(v), us[k := v])
  }

  /** Only the addressed user changes, to the patched record that is
      returned; a missing id changes nothing; ids stay unique. */
  lemma ActualizarCorrecto(us: seq<Usuario>, id: Id, p: ActualizarUsuario)
    ensures IdLibre(us, id) ==> Actualizar(us, id, p) == Actualizacion(Err(ErrorActualizar(id)), us)
    ensures !IdLibre(us, id) ==>
              var r := Actualizar(us, id, p);
              var k := Indice(us, id);
              r.respuesta == Ok(AplicarPatch(us[k], p)) && |r.usuarios| == |us|
              && r.usuarios[k] == AplicarPatch(us[k], p)
              && forall j :: 0 <= j < |us| && j != k ==> r.usuarios[j] == us[j]
    ensures IdsUnicos(us) ==> IdsUnicos(Actualizar(us, id, p).usuarios)
    ensures PatchVacio(p) ==> Actualizar(us, id, p).usuarios == us
  {
    if !IdLibre(us, id) {
      AplicarPatchCorrecto(us[Indice(us, id)], p);
    }
  }

  // --- delete (`eliminar_usuario_por_id`)

  datatype Eliminacion = Eliminacion(respuesta: Outcome, usuarios: seq<Usuario>)

  /** 204 and the user removed, or 404 with nothing changed. */
  function Eliminar(us: seq<Usuario>, id: Id): Eliminacion
  {
    var k := Indice(us, id);
    if k < 0 then Eliminacion(Fail(ErrorEliminar(id)), us)
    else Eliminacion(Pass, us[..k] + us[k + 1..])
  }

  /** After a successful delete the id is gone (ids being unique) and every
      other user is still there in order; a missing id gives 404. */
  lemma EliminarCorrecto(us: seq<Usuario>, id: Id)
    requires IdsUnicos(us)
    ensures IdLibre(us, id) <==> Eliminar(us, id).respuesta == Fail(ErrorEliminar(id))
    ensures IdLibre(us, id) ==> Eliminar(us, id).usuarios == us
    ensures Eliminar(us, id).usuarios == Filter(us, IdDistinto(id))
    ensures IdLibre(Eliminar(us, id).usuarios, id) && IdsUnicos(Eliminar(us, id).usuarios)
  {
    var k := Indice(us, id);
    if k >= 0 {
      EliminarEsFiltro(us, id, k);
      QuitarConservaUnicos(us, k);
    } else {
      FilterTodos(us, IdDistinto(id));
    }
  }

  function IdDistinto(id: Id): Usuario -> bool { (u: Usuario) => u.id != id }

  lemma QuitarConservaUnicos(us: seq<Usuario>, k: nat)
    requires IdsUnicos(us) && k < |us|
    ensures IdsUnicos(us[..k] + us[k + 1..])
  {
    var r := us[..k] + us[k + 1..];
    forall i, j | 0 <= i < j < |r| ensures r[i].id != r[j].id {
      var a := if i < k then i else i + 1;
      var b := if j < k then j else j + 1;
      assert r[i] == us[a] && r[j] == us[b];
    }
  }

  lemma EliminarEsFiltro(us: seq<Usuario>, id: Id, k: nat)
    requires IdsUnicos(us) && k < |us| && us[k].id == id
    ensures us[..k] + us[k + 1..] == Filter(us, IdDistinto(id))
  {
    forall i | 0 <= i < |us| && i != k ensures IdDistinto(id)(us[i]) {
    }
    FilterQuitaUno(us, IdDistinto(id), k);
  }

  // --- lookup by email (`obtener_usuario_por_correo`)

  function ObtenerPorCorreo(us: seq<Usuario>, correo: string): (r: Result<Usuario>)
    ensures r.Ok? ==> r.value in us && r.value.correo == correo
    ensures r.Err? <==> r == Err(ERROR_CORREO_NO_ENCONTRADO)
    ensures r.Err? <==> forall i :: 0 <= i < |us| ==> us[i].correo != correo
  {
    match UsuarioPorCorreo(us, correo)
    case None => Err(ERROR_CORREO_NO_ENCONTRADO)
    case Some(u) => Ok(u)
  }

  /** The users collection. */
  class UserStore {
    var usuarios: seq<Usuario>

    ghost predicate Valid()
      reads this
    {
      IdsUnicos(usuarios)
    }

    constructor ()
      ensures Valid() && usuarios == []
    {
      usuarios := [];
    }

    /** `guardar_usuario`, step by step: list, check for the email, fix the
        role, hash the password, insert. */
    method GuardarUsuario(usuario: UsuarioEntrada, nuevoId: Id) returns (r: Result<UsuarioRespuesta>)
      requires Valid() && IdLibre(usuarios, nuevoId)
      modifies this
      ensures Valid()
      ensures r == Registrar(old(usuarios), usuario, nuevoId).respuesta
      ensures usuarios == Registrar(old(usuarios), usuario, nuevoId).usuarios
    {
      var lista := ObtenerUsuarios(usuarios);
      var registrado := false;
      for i := 0 to |lista|
        invariant registrado <==> exists j :: 0 <= j < i && lista[j].correo == usuario.correo
      {
        if lista[i].correo == usuario.correo {
          registrado := true;
        }
      }
      if registrado {
        return Err(ERROR_CORREO_REGISTRADO);
      }
      var rol := usuario.rol;
      if |lista| < ADMINS_INICIALES {
        rol := Some(ADMIN);
      }
      var contra := Hash(usuario.contra);
      var nuevo := Usuario(nuevoId, usuario.nombres, usuario.apellidos, usuario.correo, contra,
                           usuario.pais, usuario.ciudad, usuario.inactivo, rol);
      usuarios := usuarios + [nuevo];
      r := Ok(SinContra(nuevo));
    }

    /** `actualizar_usuario`. */
    method ActualizarUsuario(usuarioId: Id, usuario: ActualizarUsuario) returns (r: Result<Usuario>)
      requires Valid()
      modifies this
      ensures Valid()
      ensures r == Actualizar(old(usuarios), usuarioId, usuario).respuesta
      ensures usuarios == Actualizar(old(usuarios), usuarioId, usuario).usuarios
    {
      ActualizarCorrecto(usuarios, usuarioId, usuario);
      var k := Indice(usuarios, usuarioId);
      if !PatchVacio(usuario) && k >= 0 {
        usuarios := usuarios[k := AplicarPatch(usuarios[k], usuario)];
      }
      if k >= 0 {
        return Ok(usuarios[k]);
      }
      r := Err(ErrorActualizar(usuarioId));
    }

    /** `eliminar_usuario_por_id`. */
    method EliminarUsuarioPorId(usuarioId: Id) returns (r: Outcome)
      requires Valid()
      modifies this
      ensures Valid()
      ensures r == Eliminar(old(usuarios), usuarioId).respuesta
      ensures usuarios == Eliminar(old(usuarios), usuarioId).usuarios
    {
      EliminarCorrecto(usuarios, usuarioId);
      var k := Indice(usuarios, usuarioId);
      if k >= 0 {
        usuarios := usuarios[..k] + usuarios[k + 1..];
        return Pass;
      }
      r := Fail(ErrorEliminar(usuarioId));
    }

    /** `obtener_usuario_por_correo`. */
    function ObtenerUsuarioPorCorreo(correo: string): (r: Result<Usuario>)
      reads this
      ensures r.Ok? ==> r.value in usuarios && r.value.correo == correo
      ensures r.Err? <==> forall i :: 0 <= i < |usuarios| ==> usuarios[i].correo != correo
    {
      ObtenerPorCorreo(usuarios, correo)
    }
  }
}
