/** The permission classes of `backend/apps/usuarios/permissions.py`: boolean
    decisions over the requesting user's role, the HTTP method, the view's action and the
    keys of the request body. */
module Permisos {
  import opened Comun

  datatype Rol = Administrador | Cajero | OtroRol(nombre: string)

  datatype Usuario = Usuario(id: int, autenticado: bool, rol: Rol, isStaff: bool)

  datatype Metodo = Get | Post | Put | Patch | Delete | Head | Options

  /** The classes' own `SAFE_METHODS`, which unlike the framework's include POST. */
  const SEGUROS: set<Metodo> := {Post, Get, Head, Options}
  const METODOS_CAJERO: set<Metodo> := {Post, Get, Head, Options, Patch}
  const CAMPOS_CAJERO: set<string> := {"nombre", "apellido", "telefono", "email"}

  /** The request as a permission class sees it. */
  datatype Peticion = Peticion(usuario: Usuario, metodo: Metodo, accion: Option<string>)

  /** `EsAdministrador.has_permission`. */
  predicate EsAdministrador(p: Peticion)
  {
    p.usuario.autenticado && p.usuario.rol == Administrador
  }

  /** `EsCajero.has_permission`: administrators also pass. */
  predicate EsCajero(p: Peticion)
  {
    p.usuario.autenticado && (p.usuario.rol == Administrador || p.usuario.rol == Cajero)
  }

  /** `has_permission` of `AccionesInventarioPermission` and of
      `VentasPermission`, which are the same code. */
  predicate PorMetodo(p: Peticion)
  {
    if !p.usuario.autenticado then false
    else if p.usuario.rol == Administrador then true
    else if p.usuario.rol == Cajero then p.metodo in METODOS_CAJERO
    else false
  }

  /** `VentasPermission.has_object_permission` as evidently meant, comparing
      the row's owner key with the user's key: a cashier only on their own rows. */
  predicate VentasObjeto(p: Peticion, duenio: int)
  {
    if p.usuario.rol == Administrador then true
    else if p.usuario.rol == Cajero then duenio == p.usuario.id && p.metodo in METODOS_CAJERO
    else false
  }

  /** `VentasPermission.has_object_permission` as written: a cashier's rule
      reads `request.user.id`, and `Usuario`, whose key is `id_usuario`, has
      no such attribute, so the check raises (`None`) instead of answering. */
  function VentasObjetoTalCual(p: Peticion, duenio: int): (r: Option<bool>)
    ensures r.None? <==> p.usuario.rol == Cajero
    ensures r.Some? ==> (r.value <==> p.usuario.rol == Administrador)
    ensures r.Some? ==> r.value == VentasObjeto(p, duenio)
  {
    if p.usuario.rol == Administrador then Some(true)
    else if p.usuario.rol == Cajero then None
    else Some(false)
  }

  const ACCIONES_SOLO_ADMIN: set<string> := {"exportar_clientes", "marcar_vip"}

  /** `ClientePermission.has_permission`. */
  predicate ClienteGeneral(p: Peticion)
  {
    if !p.usuario.autenticado then false
    else if p.usuario.rol == Administrador then true
    else if p.usuario.rol == Cajero then
      if p.accion.Some? && p.accion.value in ACCIONES_SOLO_ADMIN then false
      else p.metodo in METODOS_CAJERO
    else false
  }

  /** `ClientePermission.has_object_permission`; `claves` are the body's keys. */
  predicate ClienteObjeto(p: Peticion, claves: set<string>)
  {
    if p.usuario.rol == Administrador then true
    else if p.usuario.rol == Cajero then
      if p.metodo == Patch then claves <= CAMPOS_CAJERO
      else p.metodo in SEGUROS
    else false
  }

  /** The same request made by an administrator. */
  function ComoAdministrador(p: Peticion): (r: Peticion)
    ensures r.usuario.rol == Administrador
    ensures r.metodo == p.metodo && r.accion == p.accion && r.usuario.autenticado == p.usuario.autenticado
  {
    p.(usuario := p.usuario.(rol := Administrador))
  }

  /** In every class an administrator is allowed whenever a cashier is, and
      `EsAdministrador` is the stronger of the two role checks. */
  lemma AdministradorDomina(p: Peticion, duenio: int, claves: set<string>)
    requires p.usuario.rol == Cajero
    ensures EsCajero(p) ==> EsCajero(ComoAdministrador(p)) && EsAdministrador(ComoAdministrador(p))
    ensures PorMetodo(p) ==> PorMetodo(ComoAdministrador(p))
    ensures VentasObjeto(p, duenio) ==> VentasObjeto(ComoAdministrador(p), duenio)
    ensures ClienteGeneral(p) ==> ClienteGeneral(ComoAdministrador(p))
    ensures ClienteObjeto(p, claves) ==> ClienteObjeto(ComoAdministrador(p), claves)
    ensures EsAdministrador(p) ==> EsCajero(p)
  {
  }

  /** The method-based classes, spelled out: no anonymous user, every
      administrator, a cashier on exactly the listed methods (so never PUT nor
      DELETE), and no other role. */
  lemma PorMetodoCasos(p: Peticion)
    ensures !p.usuario.autenticado ==> !PorMetodo(p)
    ensures p.usuario.autenticado && p.usuario.rol == Administrador ==> PorMetodo(p)
    ensures p.usuario.autenticado && p.usuario.rol == Cajero ==>
      (PorMetodo(p) <==> p.metodo in {Post, Get, Head, Options, Patch})
    ensures p.usuario.rol == Cajero && (p.metodo == Put || p.metodo == Delete) ==>
      !PorMetodo(p) && !VentasObjeto(p, p.usuario.id)
    ensures p.usuario.rol.OtroRol? ==> !PorMetodo(p) && !ClienteGeneral(p) && !EsCajero(p)
  {
  }

  /** A cashier never reaches `exportar_clientes` nor `marcar_vip`, whatever the
      method, while an empty PATCH passes the field rule. */
  lemma ClienteCajero(p: Peticion)
    requires p.usuario.rol == Cajero
    ensures p.accion == Some("exportar_clientes") || p.accion == Some("marcar_vip") ==> !ClienteGeneral(p)
    ensures p.metodo == Patch ==> ClienteObjeto(p, {})
    ensures p.metodo == Patch ==> !ClienteObjeto(p, {"direccion"})
  {
  }
}
