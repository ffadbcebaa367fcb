/** scripts/create_admin.py: creating an administrator from command-line
    arguments, and the process exit status. */
module CreateAdmin {
  import opened Common
  import opened Crypto
  import opened Modelos
  import opened Usuarios

  const PAIS_POR_DEFECTO := "Colombia"
  const CIUDAD_POR_DEFECTO := "Bogotá"

  /** The parsed arguments; `--pais` and `--ciudad` may be absent. */
  datatype Argumentos = Argumentos(
    nombres: string, apellidos: string, correo: string, contra: string, pais: Option<string>, ciudad: Option<string>)

  function NuevoAdmin(nombres: string, apellidos: string, correo: string, contra: string, pais: string, ciudad: string,
                      id: Id): Usuario
  {
    Usuario(id, nombres, apellidos, correo, Hash(contra), pais, ciudad, Some(false), Some(ADMIN))
  }

  datatype Creacion = Creacion(creado: bool, usuarios: seq<Usuario>)

  /** `crear_admin`. */
  function CrearAdmin(us: seq<Usuario>, nombres: string, apellidos: string, correo: string, contra: string,
                      pais: string, ciudad: string, id: Id): Creacion
  {
    if CorreoUsado(us, correo) then Creacion(false, us)
    else Creacion(true, us + [NuevoAdmin(nombres, apellidos, correo, contra, pais, ciudad, id)])
  }

  /** A taken email gives False and inserts nothing; otherwise one active ADMIN
      with the given data and the hashed password is appended and True is
      returned. */
  lemma CrearAdminCorrecto(us: seq<Usuario>, nombres: string, apellidos: string, correo: string, contra: string,
                           pais: string, ciudad: string, id: Id)
    ensures var r := CrearAdmin(us, nombres, apellidos, correo, contra, pais, ciudad, id);
            r.creado <==> !CorreoUsado(us, correo)
    ensures var r := CrearAdmin(us, nombres, apellidos, correo, contra, pais, ciudad, id);
            !r.creado ==> r.usuarios == us
    ensures var r := CrearAdmin(us, nombres, apellidos, correo, contra, pais, ciudad, id);
            r.creado ==>
              |r.usuarios| == |us| + 1 && r.usuarios[..|us|] == us && CorreoUsado(r.usuarios, correo)
              && var a := r.usuarios[|us|];
              a.rol == Some(ADMIN) && a.inactivo == Some(false) && a.correo == correo && a.nombres == nombres
              && a.apellidos == apellidos && a.pais == pais && a.ciudad == ciudad
              && Verify(contra, a.contra) == Match(true)
  {
    var r := CrearAdmin(us, nombres, apellidos, correo, contra, pais, ciudad, id);
    if r.creado {
      assert r.usuarios[|us|].correo == correo;
    }
  }

  /** `sys.exit(1)` when `crear_admin` returned False; a normal exit
      otherwise. */
  function EstadoSalida(creado: bool): int
  {
    if creado then 0 else 1
  }

  function Pais(a: Argumentos): string { if a.pais.Some? then a.pais.value else PAIS_POR_DEFECTO }
  function Ciudad(a: Argumentos): string { if a.ciudad.Some? then a.ciudad.value else CIUDAD_POR_DEFECTO }

  /** The process after argument parsing. */
  function Ejecutar(us: seq<Usuario>, a: Argumentos, id: Id): (int, seq<Usuario>)
  {
    var r := CrearAdmin(us, a.nombres, a.apellidos, a.correo, a.contra, Pais(a), Ciudad(a), id);
    (EstadoSalida(r.creado), r.usuarios)
  }

  /** The exit status is 1 exactly when the email was taken, and then nothing
      was inserted; absent country and city default to Colombia and Bogotá. */
  lemma EjecutarCorrecto(us: seq<Usuario>, a: Argumentos, id: Id)
    ensures Ejecutar(us, a, id).0 == 1 <==> CorreoUsado(us, a.correo)
    ensures Ejecutar(us, a, id).0 == 0 <==> !CorreoUsado(us, a.correo)
    ensures Ejecutar(us, a, id).0 == 1 ==> Ejecutar(us, a, id).1 == us
    ensures Ejecutar(us, a, id).0 == 0 && a.pais.None? && a.ciudad.None? ==>
              var n := Ejecutar(us, a, id).1[|us|];
              n.pais == PAIS_POR_DEFECTO && n.ciudad == CIUDAD_POR_DEFECTO
  {
    CrearAdminCorrecto(us, a.nombres, a.apellidos, a.correo, a.contra, Pais(a), Ciudad(a), id);
  }

  /** `crear_admin` against the users collection. */
  method CrearAdminEn(store: UserStore, nombres: string, apellidos: string, correo: string, contra: string,
                      pais: string, ciudad: string, nuevoId: Id) returns (creado: bool)
    requires store.Valid() && IdLibre(store.usuarios, nuevoId)
    modifies store
    ensures store.Valid()
    ensures creado == CrearAdmin(old(store.usuarios), nombres, apellidos, correo, contra, pais, ciudad, nuevoId).creado
    ensures store.usuarios == CrearAdmin(old(store.usuarios), nombres, apellidos, correo, contra, pais, ciudad, nuevoId).usuarios
  {
    if CorreoUsado(store.usuarios, correo) {
      return false;
    }
    store.usuarios := store.usuarios + [NuevoAdmin(nombres, apellidos, correo, contra, pais, ciudad, nuevoId)];
    creado := true;
  }

  /** `main` after argument parsing: the exit status. */
  method EjecutarScript(store: UserStore, argumentos: Argumentos, nuevoId: Id) returns (estado: int)
    requires store.Valid() && IdLibre(store.usuarios, nuevoId)
    modifies store
    ensures store.Valid()
    ensures (estado, store.usuarios) == Ejecutar(old(store.usuarios), argumentos, nuevoId)
  {
    var creado := CrearAdminEn(store, argumentos.nombres, argumentos.apellidos, argumentos.correo, argumentos.contra,
                               Pais(argumentos), Ciudad(argumentos), nuevoId);
    estado := if creado then 0 else 1;
  }
}
