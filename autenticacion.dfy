/** auth/autenticacion.py: password login, token issue, and the dependencies
    that turn a bearer token into the current (active) user. The signing key
    (`CLAVE_SECRETA`), the current time and the users collection are
    parameters; pydantic's `EmailStr`, which validates an address and gives
    back its normalised form (domain lowercased), is a function the caller
    supplies: None for an invalid address. */
module Autenticacion {
  import opened Common
  import opened Crypto
  import opened Modelos

  const TIEMPO_EN_MINUTOS_EXPIRACION_TOKEN: int := 60
  /** The lifetime of a token issued without a (truthy) delta: 15 minutes. */
  const EXPIRACION_POR_DEFECTO: int := 15 * 60

  const ERROR_LOGIN := HttpError(401, "correo electronico o contraseña incorrecta")
  const ERROR_CREDENCIALES := HttpError(401, "Las credenciales pueden no ser correctas")
  const ERROR_INACTIVO := HttpError(400, "Inactive user")

  /** `autenticar_usuario`: Ok(Some(user)) for the stored user with that email
      whose password verifies, Ok(None) where the source returns False, and a
      500 when passlib raises on a stored value that is not a hash. */
  function AutenticarUsuario(usuarios: seq<Usuario>, correo: string, contra: string): (r: Result<Option<Usuario>>)
    ensures r.Ok? && r.value.Some? ==>
              r.value == UsuarioPorCorreo(usuarios, correo) && Verify(contra, r.value.value.contra) == Match(true)
    ensures UsuarioPorCorreo(usuarios, correo).None? ==> r == Ok(None)
    ensures r.Err? <==> UsuarioPorCorreo(usuarios, correo).Some? && UsuarioPorCorreo(usuarios, correo).value.contra.Plain?
  {
    match UsuarioPorCorreo(usuarios, correo)
    case None => Ok(None)
    case Some(u) =>
      match Verify(contra, u.contra)
      case Unrecognised => Err(INTERNAL_ERROR)
      case Match(ok) => if ok then Ok(Some(u)) else Ok(None)
  }

  /** The `exp` of `crear_access_token`: now plus the delta when the delta is
      truthy (given and non-zero), now plus 15 minutes otherwise. */
  function Expiracion(delta: Option<int>, ahora: int): (exp: int)
    ensures delta.Some? && delta.value != 0 ==> exp == ahora + delta.value
    ensures delta.None? || delta == Some(0) ==> exp == ahora + EXPIRACION_POR_DEFECTO
  {
    if delta.Some? && delta.value != 0 then ahora + delta.value else ahora + EXPIRACION_POR_DEFECTO
  }

  /** `crear_access_token`: the caller's claims, on a copy, with `exp` set. */
  function CrearAccessToken(datos: Claims, delta: Option<int>, ahora: int, clave: string): Token
  {
    Encode(datos["exp" := NumericDate(Expiracion(delta, ahora))], clave)
  }

  /** The issued token carries the input claims (an `exp` among them replaced)
      and nothing else but `exp`; it decodes to them with the same key until
      `exp` and fails as expired after it. */
  lemma CrearAccessTokenClaims(datos: Claims, delta: Option<int>, ahora: int, clave: string, t: int)
    ensures var c := CrearAccessToken(datos, delta, ahora, clave).claims;
            c.Keys == datos.Keys + {"exp"} && c["exp"] == NumericDate(Expiracion(delta, ahora))
            && forall k :: k in datos && k != "exp" ==> c[k] == datos[k]
    ensures t <= Expiracion(delta, ahora) ==>
              Decode(CrearAccessToken(datos, delta, ahora, clave), clave, t)
                == DecodedClaims(datos["exp" := NumericDate(Expiracion(delta, ahora))])
    ensures t > Expiracion(delta, ahora) ==>
              Decode(CrearAccessToken(datos, delta, ahora, clave), clave, t) == JwtFailure(Expired)
  {
    DecodeEncode(datos["exp" := NumericDate(Expiracion(delta, ahora))], clave, clave, t);
  }

  datatype TokenAcceso = TokenAcceso(accessToken: Token, tipoToken: string)

  /** `generar_token`: the login endpoint. */
  function GenerarToken(usuarios: seq<Usuario>, correo: string, contra: string, ahora: int, clave: string): Result<TokenAcceso>
  {
    match AutenticarUsuario(usuarios, correo, contra)
    case Err(e) => Err(e)
    case Ok(None) => Err(ERROR_LOGIN)
    case Ok(Some(u)) =>
      var datos: Claims := map["correo" := Text(u.correo)];
      Ok(TokenAcceso(CrearAccessToken(datos, Some(TIEMPO_EN_MINUTOS_EXPIRACION_TOKEN * 60), ahora, clave), "bearer"))
  }

  /** Login fails with 401 exactly when no user has the email or the password
      does not match its hash; on success the token, a bearer token, holds
      just the user's email and an expiry 60 minutes from now. */
  lemma GenerarTokenCorrecto(usuarios: seq<Usuario>, correo: string, contra: string, ahora: int, clave: string)
    requires forall i :: 0 <= i < |usuarios| ==> usuarios[i].contra.Bcrypt?
    ensures GenerarToken(usuarios, correo, contra, ahora, clave).Err? <==>
              UsuarioPorCorreo(usuarios, correo).None?
              || Verify(contra, UsuarioPorCorreo(usuarios, correo).value.contra) == Match(false)
    ensures GenerarToken(usuarios, correo, contra, ahora, clave).Err? ==>
              GenerarToken(usuarios, correo, contra, ahora, clave) == Err(ERROR_LOGIN)
    ensures GenerarToken(usuarios, correo, contra, ahora, clave).Ok? ==>
              var t := GenerarToken(usuarios, correo, contra, ahora, clave).value;
              t.tipoToken == "bearer" && t.accessToken.Signed? && t.accessToken.key == clave
              && t.accessToken.claims == map["correo" := Text(correo), "exp" := NumericDate(ahora + 3600)]
  {
    var r := UsuarioPorCorreo(usuarios, correo);
    if r.Some? {
      var i :| 0 <= i < |usuarios| && usuarios[i] == r.value;
    }
  }

  /** `obtener_usuario_actual`. A token that does not decode, lacks `correo`
      or names no stored user gives the same 401; a `correo` claim that is
      not a valid email makes pydantic raise, which is a 500. The lookup uses
      the address as `TokenData` normalises it, not the claim itself. */
  function ObtenerUsuarioActual(usuarios: seq<Usuario>, token: Token, clave: string, ahora: int,
                                normalizar: string -> Option<string>): Result<Usuario>
  {
    match Decode(token, clave, ahora)
    case JwtFailure(_) => Err(ERROR_CREDENCIALES)
    case DecodedClaims(claims) =>
      if "correo" !in claims then Err(ERROR_CREDENCIALES)
      else
        match claims["correo"]
        case NumericDate(_) => Err(INTERNAL_ERROR)
        case Text(correo) =>
          match normalizar(correo)
          case None => Err(INTERNAL_ERROR)
          case Some(normalizado) =>
            match UsuarioPorCorreo(usuarios, normalizado)
            case None => Err(ERROR_CREDENCIALES)
            case Some(u) => Ok(u)
  }

  /** The three failures give the same 401 and an invalid address the 500;
      a success is the stored user whose email is the normalised form of the
      token's claim. */
  lemma ObtenerUsuarioActualCorrecto(usuarios: seq<Usuario>, token: Token, clave: string, ahora: int,
                                     normalizar: string -> Option<string>)
    ensures Decode(token, clave, ahora).JwtFailure? ==>
              ObtenerUsuarioActual(usuarios, token, clave, ahora, normalizar) == Err(ERROR_CREDENCIALES)
    ensures Decode(token, clave, ahora).DecodedClaims? && "correo" !in Decode(token, clave, ahora).claims ==>
              ObtenerUsuarioActual(usuarios, token, clave, ahora, normalizar) == Err(ERROR_CREDENCIALES)
    ensures var d := Decode(token, clave, ahora);
            d.DecodedClaims? && "correo" in d.claims && d.claims["correo"].Text? ==>
              var c := d.claims["correo"].s;
              (normalizar(c).None? ==> ObtenerUsuarioActual(usuarios, token, clave, ahora, normalizar) == Err(INTERNAL_ERROR))
              && (normalizar(c).Some? && UsuarioPorCorreo(usuarios, normalizar(c).value).None? ==>
                    ObtenerUsuarioActual(usuarios, token, clave, ahora, normalizar) == Err(ERROR_CREDENCIALES))
    ensures var r := ObtenerUsuarioActual(usuarios, token, clave, ahora, normalizar);
            r.Ok? ==> r.value in usuarios && Decode(token, clave, ahora).DecodedClaims?
                      && "correo" in Decode(token, clave, ahora).claims
                      && Decode(token, clave, ahora).claims["correo"].Text?
                      && normalizar(Decode(token, clave, ahora).claims["correo"].s) == Some(r.value.correo)
  {
    var r := ObtenerUsuarioActual(usuarios, token, clave, ahora, normalizar);
    if r.Ok? {
      var correo := Decode(token, clave, ahora).claims["correo"].s;
      var i :| 0 <= i < |usuarios| && usuarios[i] == UsuarioPorCorreo(usuarios, normalizar(correo).value).value;
    }
  }

  /** `obtener_usuario_activo_actual`: 400 for a user marked inactive, the
      same user otherwise. */
  function UsuarioActivo(u: Usuario): (r: Result<Usuario>)
    ensures u.inactivo == Some(true) <==> r == Err(ERROR_INACTIVO)
    ensures u.inactivo != Some(true) <==> r == Ok(u)
  {
    if u.inactivo == Some(true) then Err(ERROR_INACTIVO) else Ok(u)
  }

  function ObtenerUsuarioActivoActual(usuarios: seq<Usuario>, token: Token, clave: string, ahora: int,
                                      normalizar: string -> Option<string>): Result<Usuario>
  {
    match ObtenerUsuarioActual(usuarios, token, clave, ahora, normalizar)
    case Err(e) => Err(e)
    case Ok(u) => UsuarioActivo(u)
  }

  /** `obtener_perfil`: the active current user, checked against
      `response_model=UserResponse`. The stored model lets `inactivo` and
      `rol` be null, and `if usuario_actual["inactivo"]` lets a null
      `inactivo` through; the response check then refuses it, a 500. */
  function ObtenerPerfil(usuarios: seq<Usuario>, token: Token, clave: string, ahora: int,
                         normalizar: string -> Option<string>): (r: Result<Perfil>)
    ensures var a := ObtenerUsuarioActual(usuarios, token, clave, ahora, normalizar);
            (a.Err? ==> r == Err(a.error))
            && (a.Ok? && a.value.inactivo == Some(true) ==> r == Err(ERROR_INACTIVO))
            && (a.Ok? && a.value.inactivo == None ==> r == Err(INTERNAL_ERROR))
            && (a.Ok? && a.value.inactivo == Some(false) && a.value.rol == None ==> r == Err(INTERNAL_ERROR))
            && (a.Ok? && a.value.inactivo == Some(false) && a.value.rol.Some? ==>
                  r.Ok? && r.value.id == a.value.id && r.value.correo == a.value.correo
                  && r.value.nombres == a.value.nombres && r.value.apellidos == a.value.apellidos
                  && r.value.pais == a.value.pais && r.value.ciudad == a.value.ciudad
                  && !r.value.inactivo && r.value.rol == a.value.rol.value)
  {
    match ObtenerUsuarioActivoActual(usuarios, token, clave, ahora, normalizar)
    case Err(e) => Err(e)
    case Ok(u) => ComoPerfil(u)
  }

  /** Round trip: a token issued at login, presented with the same key within
      its 60 minutes and while the users are unchanged, resolves to the user
      who logged in, provided the stored email is already in the form
      `EmailStr` gives it; presented later it gives the 401. */
  lemma LoginIdaYVuelta(usuarios: seq<Usuario>, correo: string, contra: string, ahora: int, clave: string,
                        t: int, normalizar: string -> Option<string>)
    requires GenerarToken(usuarios, correo, contra, ahora, clave).Ok?
    requires normalizar(correo) == Some(correo)
    ensures var token := GenerarToken(usuarios, correo, contra, ahora, clave).value.accessToken;
            t <= ahora + 3600 ==>
              ObtenerUsuarioActual(usuarios, token, clave, t, normalizar) == Ok(UsuarioPorCorreo(usuarios, correo).value)
    ensures var token := GenerarToken(usuarios, correo, contra, ahora, clave).value.accessToken;
            t > ahora + 3600 ==> ObtenerUsuarioActual(usuarios, token, clave, t, normalizar) == Err(ERROR_CREDENCIALES)
  {
    var u := UsuarioPorCorreo(usuarios, correo).value;
    assert u.correo == correo;
    var datos: Claims := map["correo" := Text(u.correo)];
    CrearAccessTokenClaims(datos, Some(3600), ahora, clave, t);
  }

  /** The other side of the round trip: when the stored email is not in its
      normalised form (an upper-case domain, say) and no user holds the
      normalised one, login succeeds but the token it issues is refused with
      the 401 on every request. */
  lemma LoginSinNormalizar(usuarios: seq<Usuario>, correo: string, contra: string, ahora: int, clave: string,
                           t: int, normalizar: string -> Option<string>)
    requires GenerarToken(usuarios, correo, contra, ahora, clave).Ok?
    requires normalizar(correo).Some? && normalizar(correo).value != correo
    requires UsuarioPorCorreo(usuarios, normalizar(correo).value).None?
    ensures var token := GenerarToken(usuarios, correo, contra, ahora, clave).value.accessToken;
            ObtenerUsuarioActual(usuarios, token, clave, t, normalizar) == Err(ERROR_CREDENCIALES)
  {
    var u := UsuarioPorCorreo(usuarios, correo).value;
    assert u.correo == correo;
    var datos: Claims := map["correo" := Text(u.correo)];
    CrearAccessTokenClaims(datos, Some(3600), ahora, clave, t);
  }
}
