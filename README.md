# mintic-api in Dafny

This project models the decision logic of *mintic-api*, a FastAPI/MongoDB service for a document
catalogue. It covers the semantic-search ranker and the smaller AI tools of `routes/ia.py`, the
login/token/current-user gates, and the handlers over the users, documents, notifications,
reminders and cloud-integration collections. It also covers the MongoDB serializer, the two
administrator scripts and the course listing. Properties of the model are stated and proved.

Each source file has its own module:

| module | file | form |
|---|---|---|
| `Ranker` | `ranker.dfy` | `busqueda_semantica`. Spec functions, methods that follow the handler's loops step by step, and lemmas that connect the two. |
| `IaTools` | `ia_tools.dfy` | The OCR extension check, the translation check and the tag-candidate builder. The builder is a method with the handler's loops. |
| `Autenticacion`, `AuthServices` | `autenticacion.dfy`, `services.dfy` | Pure lookup-and-decide chains over a symbolic JWT. |
| `Crypto` | `crypto.dfy` | Symbolic bcrypt and HS256 JWT (see "Left out"). |
| `Usuarios`, `Documentos` | `usuarios.dfy`, `documentos.dfy` | A `class` per collection (`UserStore`, `DocumentStore`) whose methods change the sequence field. There is a specification function per handler, with lemmas. |
| `Notificaciones` | `notificaciones.dfy` | `class NotificationStore` over the two collections. The reminder update is built field by field as in the source. |
| `Integraciones` | `integraciones.dfy` | `class IntegrationStore` over the configurations, synchronisations and exports. The configuration listing masks tokens in a loop. |
| `Serializers` | `serializers.dfy` | `serialize_mongo_doc` as a loop-filling method, with a recursive specification. |
| `InitAdmin`, `CreateAdmin` | `init_admin.dfy`, `create_admin.dfy` | The scripts as methods on a `UserStore`. |
| `Cursos` | `cursos.dfy` | The `read_item` slice. |
| `Modelos`, `Common`, `Seqs`, `Text` | | Records of `models/*.py`; `Result`/`Option`; Python/Mongo sequence and string semantics. |

Conventions:

- **Collections.** Each collection is a sequence in insertion order.
- **`find_one(filter)`.** This is the first matching element.
- **`find(f).sort(k, -1).to_list(n)`.** This is a stable descending sort of the matches, cut to `n` (`Seqs.Listado`).
- **Inputs from the environment.** These are all parameters:
  - the current time (whole seconds on one clock);
  - fresh ids, new ones required to be unused;
  - the caller's user id;
  - random picks;
  - the embedding similarity, a function `(string, string) -> real`.
- **Text.** Strings are `seq<char>`.

Behaviour kept as the source has it:

- **Registration duplicate check.** `guardar_usuario` looks for a duplicate email only among the first 1000 users that `obtener_usuarios` lists. `Usuarios.RegistrarPasadoElLimite` shows a second registration of an email held by user 1001.
- **Title lookup.** `obtener_documento_por_titulo` binds `titulo` to the bearer token, so the title it searches for is the caller's token.
- **Search message.** `RespuestaBusquedaSemantica` has no `mensaje` field, so the handler's message is computed (`Ranker.Buscar`'s `mensaje`) but is not part of the response.
- **Patched passwords.** A user patch stores `contra` as given. Logging in with such a user makes passlib raise, which is modelled as a 500 (`Crypto.Verify` gives `Unrecognised`).

## Model

| member | source | states |
|---|---|---|
| Ranker.BuscarValidacion | routes/ia.py:147-157 | An error happens exactly for a query that is blank after stripping, or a manual threshold outside [0, 1]. The blank-query 400 is checked first; 0 and 1 are accepted. |
| Ranker.CandidatosVacios | routes/ia.py:165-171 | No candidates exactly when no document has a non-blank stripped title or description. |
| Ranker.CandidatosValidos | routes/ia.py:165-187 | Every candidate comes from a document with text. It carries the stripped title and description, and is scored on `titulo + " " + descripcion`. |
| Seqs.FilterMap | routes/ia.py:165-187 | The loop that keeps one entry per document with text never yields more entries than documents. |
| Ranker.Puntuar | routes/ia.py:163-187 | The scoring loop builds exactly the specified candidate list. |
| Ranker.BuscarSinDocumentos | routes/ia.py:160-196 | For a valid query: the "No se encontraron documentos para evaluar" answer (empty, total 0) comes exactly when none of the first 1000 documents has text. |
| Ranker.CandidatosOrdenados | routes/ia.py:199 | The sort is descending by score and a permutation. Candidates of equal score keep their enumeration order. |
| Ranker.Brechas | routes/ia.py:204-210 | Over candidates sorted highest first no gap is negative; with `BrechasReconstruyen` the gaps lose nothing. |
| Ranker.BrechasReconstruyen | routes/ia.py:204-210 | The top score less the sum of the first k gaps is the k-th score, so the gaps determine every score. |
| Ranker.LimiteBusqueda | routes/ia.py:219 | The limit `min(5, max(2, int(0.3 n)))` lies in [2, 5]. |
| Ranker.MejorBrecha | routes/ia.py:214-225 | The chosen index is the largest gap among 1..hi, the earliest one on ties. |
| Ranker.UltimaBrecha | routes/ia.py:219-221 | The last gap examined lies in 1..n-1, is at most the limit, and is either the limit or n-1, so it is min(limit, n-1). |
| Ranker.PrimeraBrechaRelevante | routes/ia.py:214-225 | Sorting the gaps descending, keeping those with index ≤ limit and taking the first gives the earliest largest gap. |
| Ranker.PrimeraBrechaMaxima | routes/ia.py:214-225 | The first kept sorted gap has the largest examined value. |
| Ranker.PrimeraBrechaTemprana | routes/ia.py:214-225 | Among examined gaps of the largest value, the earliest is the one picked. |
| Ranker.FiltrarBrechasOrdenadas | routes/ia.py:215-221 | Filtering the stably sorted gaps by one value gives them in index order. |
| Ranker.MejorBrechaUnica | routes/ia.py:214-225 | The earliest largest gap is unique. |
| Ranker.SeleccionSinBrechas | routes/ia.py:205-213 | One candidate (no gaps) is kept whatever its score. |
| Ranker.SeleccionCorte | routes/ia.py:223-228 | If the earliest largest examined gap k is ≥ 0.05, exactly the first k candidates are kept. |
| Ranker.SeleccionSinCorte | routes/ia.py:229-239 | Otherwise only the top candidate is kept if it is above 0.7. Failing that, the candidates above 0.65 are kept, in order, possibly none. |
| Ranker.SeleccionSubsecuencia | routes/ia.py:202-244 | Survivors are candidates and stay sorted. With a manual threshold they are exactly those strictly above it. |
| Ranker.EjemploCorte | routes/ia.py:204-228 | Worked case: scores 0.9/0.85/0.5/0.4/0.3 keep the first two. |
| Ranker.EjemploTop | routes/ia.py:229-232 | Worked case: scores 0.72/0.70/0.69 keep only the top one. |
| Ranker.Seleccionar | routes/ia.py:202-244 | The gap loop, gap sort, comprehension and three-way choice compute the specified survivors. |
| Ranker.Fragmento | routes/ia.py:251 | A description of at most 100 characters is kept whole; a longer one gives its first 100 characters followed by "...", 103 in all. |
| Ranker.Resultados | routes/ia.py:247-260 | One result per survivor, in order. |
| Ranker.FormarResultados | routes/ia.py:247-260 | The shaping loop builds exactly those results. |
| Ranker.Elegidos | routes/ia.py:199-263 | The sorted and cut candidates, shaped and truncated, satisfy the result promises. |
| Ranker.ResultadosDeElegidos | routes/ia.py:246-263 | Valid, sorted and above-threshold survivors give valid results after truncation to `num_resultados`. |
| Ranker.BuscarResultados | routes/ia.py:246-276 | A valid query gives at most `num_resultados` results, highest first. Each result is a document of the first 1000, with its stripped title, score and fragment, and above the manual threshold if one is given. `total_encontrados` equals the length, and a message is set iff the list is empty. |
| Ranker.BusquedaSemantica | routes/ia.py:140-276 | The handler run step by step gives the specified response and message. |
| IaTools.ExtensionOcr | routes/ia.py:88-102 | A missing file name gives the 400 for no name, a disallowed lowercased extension gives the 400 listing the allowed ones, and an accepted file gives an extension from the allowed list. |
| IaTools.ExtensionOcrAceptada | routes/ia.py:96-102 | A name is accepted iff its lowercased `splitext` extension is allowed. The accepted extension ends the name, ignoring case. |
| IaTools.TextoSimulado | routes/ia.py:110-113 | The simulated text has the PDF or the image wording, and the file name reads back from it. |
| IaTools.TextoSimuladoDistingue | routes/ia.py:110-113 | A PDF's text never equals an image's, whatever the names. |
| IaTools.EjemploOcrMayusculas | routes/ia.py:96 | "informe.PDF" is accepted as ".pdf". |
| IaTools.EjemploOcrDosExtensiones | routes/ia.py:96 | Only the last extension counts. |
| IaTools.EjemploOcrArchivoOculto | routes/ia.py:96-102 | ".png" has no extension and is refused. |
| IaTools.TraducirCorrecto | routes/ia.py:286-328 | A translation happens iff the document exists and the language is listed. A missing document gives 404, checked first; an existing document with an unlisted language gives the 400. The record carries the document id, its language as origin, the requested target and the fixed note. Each translated text is its prefix naming the languages followed by the original title or description. |
| IaTools.Minusculas | routes/ia.py:368-370 | Every tag comes out in lower case, so lowercasing it again changes nothing, and it is its source tag lowercased, in the same order. |
| IaTools.MinusculasIdempotente | routes/ia.py:368-370 | Lowercasing the tags twice is the same as once. |
| IaTools.DelTituloFiltro | routes/ia.py:362-364 | The title part is the lowercased title words longer than 4 characters, in order, duplicates kept. |
| IaTools.AgregarDescripcionExtiende | routes/ia.py:366-371 | The description loop only appends, and each added tag is a lowercased description word longer than 5 characters. |
| IaTools.AgregarDescripcionSinRepetir | routes/ia.py:368-370 | No added tag equals, ignoring case, any tag before it. |
| IaTools.AgregarDescripcionCompleto | routes/ia.py:366-371 | Every description word longer than 5 characters ends up in the list, ignoring case. |
| IaTools.PosiblesEtiquetasOrden | routes/ia.py:351-371 | The candidates are the category, the author, the long title words, then new description words. |
| IaTools.NumEtiquetas | routes/ia.py:374 | The number drawn is `min(k, len(candidates))` for the random k in [3, 7]. |
| IaTools.EtiquetarDocumento | routes/ia.py:336-374 | The handler's loops build the specified candidate list and count, or the 404. |
| Autenticacion.AutenticarUsuario | auth/autenticacion.py:30-36 | A success is the stored user with that email whose password verifies. No such user gives the source's False. |
| Autenticacion.Expiracion | auth/autenticacion.py:41-44 | `exp` is now plus the delta when the delta is truthy, and now plus 15 minutes for no delta or a zero one. |
| Autenticacion.CrearAccessTokenClaims | auth/autenticacion.py:39-49 | The token holds the input claims plus `exp` and nothing else. It decodes to them with the key until `exp` and is expired after. |
| Autenticacion.GenerarTokenCorrecto | auth/autenticacion.py:86-99 | Login gives 401 iff the email is unknown or the password does not match. Otherwise it gives a bearer token whose claims are exactly the email and an expiry 60 minutes on. |
| Autenticacion.ObtenerUsuarioActualCorrecto | auth/autenticacion.py:56-77 | A decode failure, a missing `correo` claim and a normalised email that names no user all give the same 401. A claim that `EmailStr` rejects gives 500. A success is the stored user whose email is the normalised claim. |
| Autenticacion.UsuarioActivo | auth/autenticacion.py:80-83 | An inactive user gives 400 "Inactive user", and any other user is returned unchanged. |
| Autenticacion.LoginIdaYVuelta | auth/autenticacion.py:39-99 | For an email already in normalised form, a login token presented with the same key within 60 minutes resolves to the user who logged in. After that it gives 401. |
| Autenticacion.LoginSinNormalizar | auth/autenticacion.py:68-72 | A user stored under an email that `EmailStr` would change, with no user under the normalised form, can log in but the token then always gives 401. |
| Autenticacion.ObtenerPerfil | auth/autenticacion.py:80-102 | A token error gives that error, and an inactive user gives 400. A user stored with a null `inactivo`, or a null `rol`, fails the `UserResponse` check and gives 500. Otherwise the profile carries every field of the user but the password, with `inactivo` false and the stored role. |
| Modelos.ComoPerfil | models/Usuario.py:21-50 | Validation against `UserResponse` fails with 500 exactly when `inactivo` or `rol` is null; otherwise every field but `contra` is carried over. |
| AuthServices.RolRequerido | auth/services.py:6-10 | Passes iff the role is ADMIN, and otherwise gives 404 "acceso denegado". |
| AuthServices.UsuarioRolRequeridoCorrecto | auth/services.py:3-10 | Inactive gives 400 before the role is examined, an active non-admin gives 404, and only an active ADMIN passes. Token errors pass through. |
| Crypto.Hash | routes/usuarios.py:17-18 | Hashing gives a bcrypt value over at most 72 characters. |
| Crypto.Truncar | routes/usuarios.py:17-18 | bcrypt's input is the password's first 72 characters, the whole of a shorter one. |
| Crypto.VerifyHash | auth/autenticacion.py:27-28 | A password verifies against its own hash. Another verifies iff it agrees on the first 72 characters, so no other password of at most 72 does, and any sharing the first 72 does. |
| Crypto.DecodeEncode | auth/autenticacion.py:47-64 | An encoded token decodes to its claims with the same key until `exp`, is expired after, and fails with another key. |
| Modelos.UsuarioConDefectos | models/Usuario.py:21-22 | `inactivo` defaults to False and `rol` to USER. |
| Modelos.SinContra | routes/usuarios.py:76-79 | The registration answer keeps id, email, role and `inactivo`, nulls included, and has no `contra`. It is a `JSONResponse`, so `UserResponse` never checks it. |
| Modelos.UsuarioPorCorreo | auth/autenticacion.py:52-53 | Finds the first user with that exact email; None iff there is none. |
| Modelos.DocumentoPorId | routes/documentos.py:34 | Finds a stored document with that id; None iff there is none. |
| Modelos.RecordatorioConDefectos | models/Notificacion.py:43-47 | `repetir` and `enviar_email` default to False; the optional fields default to None. |
| Modelos.ConsultaConDefectos | models/IA.py:34 | `num_resultados` defaults to 5. |
| Usuarios.ObtenerUsuarios | routes/usuarios.py:26-28 | The first min(1000, n) users, in order. |
| Usuarios.RegistrarCorrecto | routes/usuarios.py:48-79 | A listed duplicate gives 400 "Correo ya registrado" with the store unchanged. Otherwise exactly one record is appended: the given fields, a hash the password verifies against, and ADMIN if fewer than 3 users existed (else the given role). The response omits `contra`. |
| Usuarios.RegistrarUnicidad | routes/usuarios.py:49-53 | With at most 1000 users, registration keeps emails and ids unique. |
| Usuarios.RegistrarPasadoElLimite | routes/usuarios.py:27-50 | With an email held only past the 1000th user, registration succeeds and duplicates it. |
| Usuarios.AplicarPatchCorrecto | routes/usuarios.py:91-97 | Each field (names, surnames, email, password, country, city, inactive flag, role) takes the given value when given and is kept when None; the id never changes. An empty patch is the identity, patching twice equals once, and a patched `contra` is stored unhashed. |
| Usuarios.ActualizarCorrecto | routes/usuarios.py:86-110 | 404 with no change for a missing id. Otherwise only the addressed user changes, to the patched record that is returned. An empty patch changes nothing, and ids stay unique. |
| Usuarios.EliminarCorrecto | routes/usuarios.py:116-123 | 404 iff the id is missing, with nothing changed. A delete removes exactly that id, keeps the others in order, and afterwards the id is gone. |
| Usuarios.EliminarEsFiltro | routes/usuarios.py:117 | Removing the unique user with an id is filtering that id out. |
| Usuarios.QuitarConservaUnicos | routes/usuarios.py:117 | Removing one user keeps ids unique. |
| Usuarios.Indice | routes/usuarios.py:96-104 | The position of the first user with the id, or -1 iff there is none. |
| Usuarios.ObtenerPorCorreo | routes/usuarios.py:35-40 | A match carries the email. 404 "Usuario con ese correo no encontrado" iff no user has it. |
| Usuarios.UserStore.constructor | routes/usuarios.py:12 | An empty collection. |
| Usuarios.UserStore.GuardarUsuario | routes/usuarios.py:48-79 | The step-by-step handler gives the specified answer and new collection. |
| Usuarios.UserStore.ActualizarUsuario | routes/usuarios.py:86-110 | Gives the specified answer and new collection. |
| Usuarios.UserStore.EliminarUsuarioPorId | routes/usuarios.py:116-123 | Gives the specified answer and new collection. |
| Usuarios.UserStore.ObtenerUsuarioPorCorreo | routes/usuarios.py:35-40 | A stored user with that email, or an error iff there is none. |
| Documentos.ObtenerDocumentos | routes/documentos.py:25-27 | The first min(1000, n) documents, in order. |
| Documentos.ObtenerPorId | routes/documentos.py:31-40 | A stored document with that id, or 404 iff there is none. |
| Documentos.ObtenerPorTitulo | routes/documentos.py:44-49 | A document whose title is exactly the given string, which is the bearer token, or 404 iff there is none. |
| Documentos.GuardarDocumentoCorrecto | routes/documentos.py:57-95 | The new document has the fresh id, the ten form fields and the image URL, and a lookup by its id finds it. |
| Documentos.DocumentoPorIdAlFinal | routes/documentos.py:91-94 | A document appended under a fresh id is what `find_one` by that id returns. |
| Documentos.Indice | routes/documentos.py:113-124 | The position of the first document with the id, or -1 iff there is none. |
| Documentos.AplicarPatchCorrecto | routes/documentos.py:107-115 | Each field (title, type, author, category, publisher, language, pages, description, stock, price) takes the given value when given and is kept when None; id and image never change. An empty patch is the identity and the patch is idempotent. |
| Documentos.ActualizarCorrecto | routes/documentos.py:102-130 | 404 with no change for a missing id. Otherwise only the addressed document changes, to the returned patched record. An empty patch changes nothing, and ids stay unique. |
| Documentos.EliminarCorrecto | routes/documentos.py:136-145 | 404 iff missing, with nothing changed. A delete removes exactly that document, after which a lookup gives 404. |
| Documentos.EliminarEsFiltro | routes/documentos.py:139 | Removing the unique document with an id is filtering that id out. |
| Documentos.QuitarConservaUnicos | routes/documentos.py:139 | Removing one document keeps ids unique. |
| Documentos.DocumentStore.constructor | routes/documentos.py:21 | An empty collection. |
| Documentos.DocumentStore.GuardarDocumento | routes/documentos.py:57-95 | Appends exactly the specified record and returns it. |
| Documentos.DocumentStore.ActualizarDocumento | routes/documentos.py:102-130 | Gives the specified answer and new collection. |
| Documentos.DocumentStore.EliminarDocumentoPorId | routes/documentos.py:136-145 | Gives the specified answer and new collection. |
| Notificaciones.IconoInyectivo | routes/notificaciones.py:60-65 | Each of the four types has its own icon. |
| Notificaciones.ListarNotificacionesCorrecto | routes/notificaciones.py:18-41 | min(50, matches) of the caller's notifications matching `estado`/`tipo`, newest first. With no more than 50 matches it holds them all, each once. |
| Notificaciones.ListarNotificacionesMejores | routes/notificaciones.py:37-39 | The listing is a sub-multiset of the matches, and no match left out is newer than one listed. |
| Notificaciones.CrearNotificacionCorrecto | routes/notificaciones.py:45-95 | A named missing document gives 404 and inserts nothing. Otherwise one notification of the caller is appended, NO_LEIDA, never read, with its type's icon and the creation time, and with the body's type, title, message, document id and action URL. |
| Notificaciones.MarcarLeidaCorrecto | routes/notificaciones.py:99-132 | 404 iff the notification is missing or someone else's, with nothing changed. Otherwise only it changes, to LEIDA with the read time. |
| Notificaciones.MarcarTodas | routes/notificaciones.py:144-152 | Exactly the caller's NO_LEIDA notifications become read. Every other notification is unchanged. |
| Notificaciones.MarcarTodasCuenta | routes/notificaciones.py:144-154 | Afterwards the caller has no unread notification. The reported count is the number that were unread. |
| Notificaciones.IndiceN | routes/notificaciones.py:110-113 | The position of the first notification with the id, or -1 iff there is none. |
| Notificaciones.IndiceR | routes/notificaciones.py:256-259 | The position of the first reminder with the id, or -1 iff there is none. |
| Notificaciones.IndicePropio | routes/notificaciones.py:256-259 | A found reminder has that id and belongs to the caller. -1 iff no reminder has the id or the first one with it is someone else's; with unique ids, -1 means none of the caller's has it. |
| Notificaciones.CrearRecordatorioCorrecto | routes/notificaciones.py:158-206 | Success iff the document exists and the date is strictly after now. A missing document gives its 404, checked first; a past date gives 400; errors insert nothing. The new reminder has the given id, owner, document, title, message, repetition and email flag, is created now, due at its date, unsent, active and never run, with a destination only when email is enabled. |
| Notificaciones.ListarRecordatoriosCorrecto | routes/notificaciones.py:210-233 | min(50, matches) of the caller's reminders matching `activo`/`documento_id`, soonest first. With no more than 50 matches it holds them all. |
| Notificaciones.ListarRecordatoriosMejores | routes/notificaciones.py:229-231 | The listing is a sub-multiset of the matches, and no match left out is due sooner than one listed. |
| Notificaciones.ActualizarRecordatorioCorrecto | routes/notificaciones.py:237-319 | Someone else's or a missing reminder gives 404. Errors change nothing. A past date gives its own 400, checked before an empty update, which gives the other 400. A success changes only the addressed reminder: each of title, message, date, repetition, interval, active flag, email flag and destination takes the given value when given and is kept when not; id, owner, document, sent flag, last run and creation time never change. A new date must be future and sets both the scheduled date and the next run. |
| Notificaciones.EliminarRecordatorioCorrecto | routes/notificaciones.py:323-348 | 404 iff missing or not the caller's, with nothing changed. Otherwise the result is exactly the stored reminders without that id, in order, and the id is gone. |
| Notificaciones.QuitarRecordatorio | routes/notificaciones.py:346 | With unique ids, removing the reminder at one position is filtering out its id: one fewer, the id gone, the others unique and in order. |
| Notificaciones.NotificationStore.constructor | routes/notificaciones.py:14 | Both collections empty. |
| Notificaciones.NotificationStore.Listar | routes/notificaciones.py:18-41 | The listing of the stored notifications as `ListarNotificaciones` specifies it: at most 50, all the caller's. |
| Notificaciones.NotificationStore.Crear | routes/notificaciones.py:45-95 | Gives the specified answer and new collection. Reminders are untouched. |
| Notificaciones.NotificationStore.MarcarComoLeida | routes/notificaciones.py:99-132 | Gives the specified answer and new collection. |
| Notificaciones.NotificationStore.MarcarTodasComoLeidas | routes/notificaciones.py:136-154 | Reports the number of the caller's unread notifications and marks them read. |
| Notificaciones.NotificationStore.CrearRecordatorioEn | routes/notificaciones.py:158-206 | Gives the specified answer and new collection. |
| Notificaciones.NotificationStore.ListarRecordatoriosDe | routes/notificaciones.py:210-233 | The listing of the stored reminders as `ListarRecordatorios` specifies it: at most 50, all the caller's. |
| Notificaciones.NotificationStore.ConstruirActualizacion | routes/notificaciones.py:268-306 | The if-chain that builds `actualizacion` gives the specified update: a past date is refused as met, then an empty update is refused. |
| Notificaciones.NotificationStore.Actualizar | routes/notificaciones.py:237-319 | Gives the specified answer and new collection. |
| Notificaciones.NotificationStore.Eliminar | routes/notificaciones.py:323-348 | Gives the specified answer and new collection. |
| Integraciones.ConfigurarCorrecto | routes/integraciones.py:25-63 | The upsert keeps one configuration per (user, provider). Afterwards the caller's one for that provider exists exactly once with the new settings. Other configurations are kept. The message says "actualizada" or "guardada" according to whether one existed. |
| Integraciones.ConfigurarExistente | routes/integraciones.py:53-58 | Overwriting the existing configuration in place keeps the invariant. |
| Integraciones.ConfigurarNueva | routes/integraciones.py:59-61 | Inserting the first one for (user, provider) keeps the invariant. |
| Integraciones.Enmascarar | routes/integraciones.py:79-81 | An empty token shows as "No configurado"; a configured one shows at most 10 of its leading characters and "...", at most 13 in all, and never reads as "No configurado". |
| Integraciones.EnmascararOculta | routes/integraciones.py:81 | A masked token never shows more than its first 10 characters. |
| Integraciones.ConfiguracionesVisiblesCorrecto | routes/integraciones.py:67-83 | The caller's first min(10, theirs) configurations in stored order, each with its token masked and otherwise unchanged; nobody else's. |
| Integraciones.IntegrationStore.ListarConfiguraciones | routes/integraciones.py:74-83 | The masking loop gives the specified listing. |
| Integraciones.UrlEnNubeCorrecto | routes/integraciones.py:122-129 | The URL is the provider's base, then the cloud id, then "/view". Different providers give different URLs. |
| Integraciones.SincronizarCorrecto | routes/integraciones.py:87-156 | A missing document gives 404, then a caller without a configuration for the provider gives 404, and errors change nothing. A success keeps exactly one COMPLETADO record per (user, document, provider) and keeps every other record. That record carries the document title, the cloud id built from the provider, the time and the random draw, and the URL over that id; the answer carries the same id and URL, COMPLETADO and the message naming the provider. The next sync is a day later iff automatic. |
| Integraciones.RegistrarSincronizacion | routes/integraciones.py:145-149 | The upsert keyed by (user, document, provider) keeps one record per key, at the old position or appended. |
| Integraciones.ListarSincronizacionesCorrecto | routes/integraciones.py:160-181 | min(50, matches) of the caller's records, optionally of one provider, latest first. With no more than 50 matches it holds them all. |
| Integraciones.ListarSincronizacionesMejores | routes/integraciones.py:160-181 | The history is a sub-multiset of the matches, and no match left out is later than one listed. |
| Integraciones.ExportarCorrecto | routes/integraciones.py:185-255 | A missing document gives 404, then an unsupported lowercased format gives 400, then a failed caller lookup gives its error, and these record nothing. Otherwise one lowercased export is recorded; a title that latin-1 cannot encode then fails the `Content-Disposition` header with a 500, the record already made. A success serves the title with spaces turned into "_", then "." and the format, with the media type of the format's table, each of the six formats getting its own. |
| Integraciones.NombreArchivoLatin1 | routes/integraciones.py:250-255 | For a valid format the file name is latin-1 exactly when the title is. |
| Integraciones.Grupos | routes/integraciones.py:266-280 | Group keys are exactly the non-empty field values present. |
| Integraciones.GruposCuenta | routes/integraciones.py:268 | Each group counts exactly the documents with that key. |
| Integraciones.EstadisticasCorrecto | routes/integraciones.py:264-280 | The total counts every document. Both maps have exactly the non-empty categories and languages, with their counts. |
| Integraciones.IntegrationStore.constructor | routes/integraciones.py:21 | All collections empty. |
| Integraciones.IntegrationStore.ConfigurarNube | routes/integraciones.py:25-63 | Gives the specified message and configurations. Other collections are untouched. |
| Integraciones.IntegrationStore.SincronizarDocumento | routes/integraciones.py:87-156 | Gives the specified answer and history. |
| Integraciones.IntegrationStore.ExportarDocumento | routes/integraciones.py:185-255 | Gives the answer and export log that `Exportar` specifies, the non-latin-1 500 after recording included, and leaves the other collections alone. |
| Serializers.SerializarEntradas | utils/serializers.py:21-35 | The output has exactly the input's keys, in order. |
| Serializers.SerializarDoc | utils/serializers.py:18-19 | `None` stays `None`; a document keeps its keys in order, and every value in it is clean and a fixed point of serialization. |
| Serializers.EntradasLimpias | utils/serializers.py:21-35 | Every serialized entry value is clean and left alone by a second serialization. |
| Serializers.SerializarDocs | utils/serializers.py:37-48 | Element-wise in the same order; a missing document stays missing and every value of a present one is clean. |
| Serializers.SerializarCampoForma | utils/serializers.py:23-34 | ObjectId becomes its string and nested dicts keep their keys. Lists keep their length and their nested lists. Scalars are unchanged. |
| Serializers.SerializarLimpia | utils/serializers.py:22-34 | No serialized value holds an ObjectId where the serializer looks. |
| Serializers.SerializarElementoLimpio | utils/serializers.py:28-31 | Serialized list items are clean. |
| Serializers.LimpioFijo | utils/serializers.py:22-34 | A clean value is left as it is. |
| Serializers.ElementoLimpioFijo | utils/serializers.py:28-31 | A clean list item is left as it is. |
| Serializers.SerializarIdempotente | utils/serializers.py:7-35 | Serializing twice equals serializing once. |
| Serializers.SerializeMongoDoc | utils/serializers.py:7-35 | The loop that fills `result` gives the specified document. |
| InitAdmin.OPorDefecto | scripts/init_admin.py:29-30 | An unset or empty variable gives the default. |
| InitAdmin.CrearAdminSiNoExisteCorrecto | scripts/init_admin.py:20-57 | An existing ADMIN, or a taken email, means nothing is inserted. Otherwise exactly one ADMIN is appended, active, with the chosen email and a hash of the chosen password. Afterwards an ADMIN exists iff one did or the email was free. |
| InitAdmin.CrearAdminSiNoExisteIdempotente | scripts/init_admin.py:22-51 | Running twice leaves the same users as running once. |
| InitAdmin.CrearAdminSiNoExisteEn | scripts/init_admin.py:20-57 | The script against a user store gives the specified outcome and collection. |
| CreateAdmin.CrearAdminCorrecto | scripts/create_admin.py:19-46 | False iff the email is taken, and then nothing is inserted. Otherwise one active ADMIN with the given data and a hashed password is appended. |
| CreateAdmin.EjecutarCorrecto | scripts/create_admin.py:54-69 | Exit status 1 iff the email was taken, and 0 otherwise. `pais`/`ciudad` default to Colombia/Bogotá. |
| CreateAdmin.CrearAdminEn | scripts/create_admin.py:19-46 | Gives the specified result and collection. |
| CreateAdmin.EjecutarScript | scripts/create_admin.py:48-69 | Gives the specified exit status and collection. |
| Cursos.PySliceContiguo | app/main.py:21 | A Python slice is a contiguous run of the list, in order, from the normalised start. |
| Cursos.LeerCursosCorrecto | app/main.py:17-21 | The listing is a contiguous, ordered slice. For non-negative skip and limit it starts at `skip` and has length min(limit, max(0, 4 - skip)). skip ≥ 4 gives []. The defaults list all four courses. |
| Seqs.ListadoCorrecto | routes/notificaciones.py:37-39 | A sorted, capped listing has min(n, matches) elements, drawn from the matches as a sub-multiset, by descending key, and no match left out has a higher key than any listed. |
| Seqs.ListadoMejores | routes/notificaciones.py:37-39 | The capped listing is a sub-multiset of the matches, and what it leaves out ranks no higher than anything in it. |
| Seqs.PrefijoMejores | routes/notificaciones.py:37-39 | Cutting a descending sequence keeps elements whose keys are no lower than any cut off. |
| Seqs.ListadoCompleto | routes/notificaciones.py:37-39 | With no more than n matches the listing holds every match once. |
| Seqs.SortDescStable | routes/ia.py:199 | Equal keys keep their order through the sort. |
| Seqs.Primero | routes/integraciones.py:36-39 | `find_one` addresses the first match, or none iff nothing matches. |
| Text.StripIsEmptyIffAllSpace | routes/ia.py:148 | `strip()` is empty iff every character is whitespace. |
| Text.SplitExtShape | routes/ia.py:96 | `splitext` loses nothing. The extension is empty or a dot followed by no dot or slash. |
| Text.LowerIdempotent | routes/integraciones.py:199 | Lowercasing twice equals lowercasing once. |

## Left out

- Embeddings and Gemini (`services/gemini_service.py`) are not part of this model. Similarity is a function the caller passes in, and scores are exact reals.
- Ranker.Resultados: `relevancia` is reported unrounded. `round(x, 2)` is float rounding. The execution time is left out too.
- Ranker.LimiteBusqueda: `int(n * 0.3)` is computed as `3n / 10`. The float product gives the same floor wherever the result is below the cap of 5.
- Randomness, sleeps and clocks are parameters:
  - the OCR metadata and confidence;
  - the tag sample and its confidences;
  - the cloud id's random part;
  - `time.time()`/`datetime.now()`.
- Dates are whole seconds on one clock. The source compares timezone-aware or ISO-string dates with a naive `now()`; that typing is not modelled.
- IaTools.EtiquetarDocumento: it stops at the candidate list and the count. The random sample, the confidences, their sort and the `etiquetas_ia` upsert are left out.
- `clasificar_documento` and `consultar_asistente` (`routes/ia.py`) are outside the modelled core. They are simulated answers built from random choices.
- Crypto: bcrypt and HS256 are symbolic, not actual hashing or signing. `Hash(p)` verifies exactly the passwords that share `p`'s first 72 characters. A token decodes to its claims with the key it was signed with, until its `exp`. Salt is not modelled.
- Crypto.Truncar: bcrypt truncates at 72 bytes of UTF-8; the model counts 72 characters, which is the same for ASCII passwords.
- Autenticacion.GenerarTokenCorrecto: requires every stored password to be a bcrypt hash. A stored plain `contra` (written by a patch) makes passlib raise, and `AutenticarUsuario` states that 500 separately.
- Autenticacion.ObtenerUsuarioActual: pydantic's `EmailStr`, which validates the claim and gives back its normalised form, is a function the caller supplies; its exact normalisation rules are not modelled.
- Usuarios.RegistrarUnicidad: requires at most 1000 users. Beyond that the source's duplicate check is blind, as `RegistrarPasadoElLimite` states.
- Usuarios.EliminarCorrecto, Documentos.EliminarCorrecto and Notificaciones.EliminarRecordatorioCorrecto require ids to be unique. MongoDB guarantees this for `_id`.
- Integraciones.ConfigurarCorrecto and Integraciones.SincronizarCorrecto require the one-per-key invariant that their upserts keep.
- MongoDB semantics are modelled in memory:
  - `modified_count` (a no-op update returns the record through the fallback lookup, as modelled);
  - ties in `sort` keep insertion order;
  - the `str`/`ObjectId` mismatch of `_id` lookups (ids are plain strings);
  - the 20-group cap and unspecified order of the statistics aggregates (a map is used).
- Missing keys are not modelled: records always have all their fields. `dict.get` defaults such as "documento" are therefore unreachable, and so are the KeyErrors the source would raise.
- The token masking guard `if "token_acceso" in config` is always true in the model.
- `find_one({"_id": id, "usuario_id": u})` is the first reminder with that id, followed by an owner check. This is the same thing when ids are unique.
- The `ProveedorNube` f-string is rendered as the enum value. Depending on the Python version, `str()` of a `str`-mixin enum may print the member name instead.
- The statistics' random lists (`mas_vistos`, `usuarios_mas_activos`, documents recientes) are left out, as is the export file content (`StreamingResponse`/`BytesIO`).
- The source's import errors are not modelled: `usuario_admin_requerido` is imported but `usuario_rol_requerido` is defined, and `serialize_mongo_doc_filtered` is not defined. The role gate and the exclusion of `contra` are modelled as intended.
- The following are not modelled: FastAPI routing and `Depends`, CORS (`main.py`), `routes/imagenes.py` (the image URL is a parameter), `routes/registros.py` (plain passthrough lookups), `models/Id.py` ObjectId validation, and `config/db.py`.
- Script plumbing is not modelled: argparse errors, `asyncio`, environment loading and printed messages. The printed outcome of `init_admin.py` becomes a `Desenlace` value.
- Both scripts treat a falsy `inserted_id` as failure. It is always truthy, so that branch is not modelled.
- Text.LowerChar: it lowercases ASCII and Latin-1 letters only; other Unicode case mappings are left out.
