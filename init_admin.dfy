/** scripts/init_admin.py: creating a default administrator when the users
    collection has none. The environment variables are parameters; the
    printed messages become the returned outcome. */
module InitAdmin {
  import opened Common
  import opened Crypto
  import opened Modelos
  import opened Usuarios

  const CORREO_POR_DEFECTO := "admin@sistema.com"
  const CONTRA_POR_DEFECTO := "Admin123!"

  /** `os.environ.get(name) or default`: an unset or empty variable gives the
      default. */
  function OPorDefecto(variable: Option<string>, porDefecto: string): (r: string)
    ensures variable.Some? && variable.value != [] ==> r == variable.value
    ensures variable.None? || variable.value == [] ==> r == porDefecto
  {
    if variable.Some? && variable.value != [] then variable.value else porDefecto
  }

  datatype Desenlace = YaExisteAdmin | CorreoEnUso(correo: string) | Creado(correo: string)

  /** `find_one({"rol": "ADMIN"})` finds something. */
  predicate HayAdmin(us: seq<Usuario>)
  {
    exists i :: 0 <= i < |us| && us[i].rol == Some(ADMIN)
  }

  function AdminPorDefecto(correo: string, contra: string, id: Id): Usuario
  {
    Usuario(id, "Administrador", "Sistema", correo, Hash(contra), "Colombia", "Bogotá", Some(false), Some(ADMIN))
  }

  datatype Arranque = Arranque(desenlace: Desenlace, usuarios: seq<Usuario>)

  function CrearAdminSiNoExiste(us: seq<Usuario>, envCorreo: Option<string>, envContra: Option<string>, id: Id): Arranque
  {
    var correo := OPorDefecto(envCorreo, CORREO_POR_DEFECTO);
    if HayAdmin(us) then Arranque(YaExisteAdmin, us)
    else if CorreoUsado(us, correo) then Arranque(CorreoEnUso(correo), us)
    else Arranque(Creado(correo), us + [AdminPorDefecto(correo, OPorDefecto(envContra, CONTRA_POR_DEFECTO), id)])
  }

  /** With an administrator present or the email taken nothing is inserted;
      otherwise exactly one active ADMIN with the hashed password is appended,
      and afterwards an administrator exists. */
  lemma CrearAdminSiNoExisteCorrecto(us: seq<Usuario>, envCorreo: Option<string>, envContra: Option<string>, id: Id)
    ensures HayAdmin(us) ==> CrearAdminSiNoExiste(us, envCorreo, envContra, id) == Arranque(YaExisteAdmin, us)
    ensures var correo := OPorDefecto(envCorreo, CORREO_POR_DEFECTO);
            !HayAdmin(us) && CorreoUsado(us, correo) ==>
              CrearAdminSiNoExiste(us, envCorreo, envContra, id) == Arranque(CorreoEnUso(correo), us)
    ensures var r := CrearAdminSiNoExiste(us, envCorreo, envContra, id);
            r.desenlace.Creado? ==>
              |r.usuarios| == |us| + 1 && r.usuarios[..|us|] == us
              && var a := r.usuarios[|us|];
              a.rol == Some(ADMIN) && a.inactivo == Some(false) && a.contra.Bcrypt? && a.id == id
              && Verify(OPorDefecto(envContra, CONTRA_POR_DEFECTO), a.contra) == Match(true)
              && a.correo == OPorDefecto(envCorreo, CORREO_POR_DEFECTO)
    ensures HayAdmin(CrearAdminSiNoExiste(us, envCorreo, envContra, id).usuarios) <==>
              HayAdmin(us) || !CorreoUsado(us, OPorDefecto(envCorreo, CORREO_POR_DEFECTO))
  {
    var r := CrearAdminSiNoExiste(us, envCorreo, envContra, id);
    if r.desenlace.Creado? {
      assert r.usuarios[|us|].rol == Some(ADMIN);
    }
  }

  /** Running the bootstrap a second time changes nothing. */
  lemma CrearAdminSiNoExisteIdempotente(us: seq<Usuario>, envCorreo: Option<string>, envContra: Option<string>, id: Id, id2: Id)
    ensures var una := CrearAdminSiNoExiste(us, envCorreo, envContra, id).usuarios;
            CrearAdminSiNoExiste(una, envCorreo, envContra, id2).usuarios == una
  {
    var una := CrearAdminSiNoExiste(us, envCorreo, envContra, id).usuarios;
    if una != us {
      assert una[|us|].rol == Some(ADMIN);
    }
  }

  /** The script against the users collection. */
  method CrearAdminSiNoExisteEn(store: UserStore, envCorreo: Option<string>, envContra: Option<string>, nuevoId: Id)
    returns (d: Desenlace)
    requires store.Valid() && IdLibre(store.usuarios, nuevoId)
    modifies store
    ensures store.Valid()
    ensures d == CrearAdminSiNoExiste(old(store.usuarios), envCorreo, envContra, nuevoId).desenlace
    ensures store.usuarios == CrearAdminSiNoExiste(old(store.usuarios), envCorreo, envContra, nuevoId).usuarios
  {
    if HayAdmin(store.usuarios) {
      return YaExisteAdmin;
    }
    var correo := OPorDefecto(envCorreo, CORREO_POR_DEFECTO);
    var contra := OPorDefecto(envContra, CONTRA_POR_DEFECTO);
    if CorreoUsado(store.usuarios, correo) {
      return CorreoEnUso(correo);
    }
    store.usuarios := store.usuarios + [AdminPorDefecto(correo, contra, nuevoId)];
    d := Creado(correo);
  }
}
