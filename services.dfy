/** auth/services.py: the admin-role gate, layered on the active-user gate. */
module AuthServices {
  import opened Common
  import opened Crypto
  import opened Modelos
  import opened Autenticacion

  const ERROR_ACCESO := HttpError(404, "acceso denegado")

  /** The role check of `usuario_rol_requerido` on a user the active gate let
      through: 404 unless the stored role is ADMIN. */
  function RolRequerido(u: Usuario): (r: Outcome)
    ensures r == Pass <==> u.rol == Some(ADMIN)
    ensures r != Pass ==> r == Fail(ERROR_ACCESO)
  {
    if u.rol != Some(ADMIN) then Fail(ERROR_ACCESO) else Pass
  }

  /** `usuario_rol_requerido` with its dependency chain. */
  function UsuarioRolRequerido(usuarios: seq<Usuario>, token: Token, clave: string, ahora: int,
                               normalizar: string -> Option<string>): Outcome
  {
    match ObtenerUsuarioActivoActual(usuarios, token, clave, ahora, normalizar)
    case Err(e) => Fail(e)
    case Ok(u) => RolRequerido(u)
  }

  /** An inactive user gets the 400 before the role is looked at, an active
      non-admin the 404, and an active admin passes. */
  lemma UsuarioRolRequeridoCorrecto(usuarios: seq<Usuario>, token: Token, clave: string, ahora: int,
                                    normalizar: string -> Option<string>)
    ensures var a := ObtenerUsuarioActual(usuarios, token, clave, ahora, normalizar);
            a.Ok? && a.value.inactivo == Some(true) ==>
              UsuarioRolRequerido(usuarios, token, clave, ahora, normalizar) == Fail(ERROR_INACTIVO)
    ensures var a := ObtenerUsuarioActual(usuarios, token, clave, ahora, normalizar);
            a.Ok? && a.value.inactivo != Some(true) && a.value.rol != Some(ADMIN) ==>
              UsuarioRolRequerido(usuarios, token, clave, ahora, normalizar) == Fail(ERROR_ACCESO)
    ensures UsuarioRolRequerido(usuarios, token, clave, ahora, normalizar) == Pass <==>
              var a := ObtenerUsuarioActual(usuarios, token, clave, ahora, normalizar);
              a.Ok? && a.value.inactivo != Some(true) && a.value.rol == Some(ADMIN)
    ensures var a := ObtenerUsuarioActual(usuarios, token, clave, ahora, normalizar);
            a.Err? ==> UsuarioRolRequerido(usuarios, token, clave, ahora, normalizar) == Fail(a.error)
  {
  }
}
