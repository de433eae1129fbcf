/** The row filters and the cashier's field filter of
    `backend/apps/ventas/views.py`: which sales, details and clients each role
    lists, and what a cashier's partial update of a client may write. */
module VentasVistas {
  import opened Comun
  import opened Permisos
  import opened Ventas

  /** `VentaViewSet.get_queryset` as evidently meant, with the user's key
      `id_usuario`: a cashier lists only the sales they made, every other role
      lists them all. */
  function VentasVisibles(u: Usuario, ventas: map<int, Venta>): (r: map<int, Venta>)
    ensures forall k :: k in r <==> k in ventas && (u.rol == Cajero ==> ventas[k].idUsuario == u.id)
    ensures forall k :: k in r ==> r[k] == ventas[k]
  {
    map k | k in ventas && (u.rol == Cajero ==> ventas[k].idUsuario == u.id) :: ventas[k]
  }

  /** `VentaViewSet.get_queryset` as written: the cashier's branch reads
      `request.user.id`, which `Usuario` lacks, so a cashier's listing raises
      (`None`); every other role lists every sale, as `VentasVisibles` does. */
  function VentasVisiblesTalCual(u: Usuario, ventas: map<int, Venta>): (r: Option<map<int, Venta>>)
    ensures r.None? <==> u.rol == Cajero
    ensures r.Some? ==> r.value == ventas && r.value == VentasVisibles(u, ventas)
  {
    if u.rol == Cajero then None else Some(ventas)
  }

  /** The detail belongs to a stored sale made by user `id`. */
  function DeVentaDeUsuario(ventas: map<int, Venta>, id: int): Detalle -> bool
  {
    (d: Detalle) => d.idVenta in ventas && ventas[d.idVenta].idUsuario == id
  }

  /** `DetalleVentaViewSet.get_queryset` as evidently meant: everyone but an
      administrator lists only the details of their own sales, in table order. */
  function DetallesVisibles(u: Usuario, ventas: map<int, Venta>, detalles: seq<Detalle>): (r: seq<Detalle>)
    ensures u.rol == Administrador ==> r == detalles
  {
    if u.rol == Administrador then detalles else Filtrar(detalles, DeVentaDeUsuario(ventas, u.id))
  }

  /** `DetalleVentaViewSet.get_queryset` as written: every role but an
      administrator reaches `request.user.id` and raises (`None`); an
      administrator lists every detail, as `DetallesVisibles` does. */
  function DetallesVisiblesTalCual(u: Usuario, ventas: map<int, Venta>, detalles: seq<Detalle>): (r: Option<seq<Detalle>>)
    ensures r.None? <==> u.rol != Administrador
    ensures r.Some? ==> r.value == detalles && r.value == DetallesVisibles(u, ventas, detalles)
  {
    if u.rol == Administrador then Some(detalles) else None
  }

  /** What a cashier lists are their own sales, each of which `VentasPermission`
      then lets them open with an allowed method; what they do not list is
      exactly what the object rule would refuse. */
  lemma VentasVisiblesPermitidas(p: Peticion, ventas: map<int, Venta>)
    requires p.usuario.rol == Cajero && p.metodo in METODOS_CAJERO
    ensures forall k :: k in ventas ==> (k in VentasVisibles(p.usuario, ventas) <==> VentasObjeto(p, ventas[k].idUsuario))
  {
  }

  /** The detail filter keeps exactly the details of own sales, in table order,
      and for a cashier it agrees with the sale filter: a listed detail's sale
      is a listed sale. */
  lemma DetallesVisiblesPropios(u: Usuario, ventas: map<int, Venta>, detalles: seq<Detalle>)
    requires u.rol != Administrador
    ensures forall d :: d in DetallesVisibles(u, ventas, detalles) <==>
      d in detalles && d.idVenta in ventas && ventas[d.idVenta].idUsuario == u.id
    ensures u.rol == Cajero ==> forall d :: d in DetallesVisibles(u, ventas, detalles) ==>
      d.idVenta in VentasVisibles(u, ventas)
    ensures DetallesVisibles(u, ventas, detalles) == Filtrar(detalles, DeVentaDeUsuario(ventas, u.id))
  {
    var f := DeVentaDeUsuario(ventas, u.id);
    FiltrarMiembros(detalles, f);
    forall d ensures f(d) == (d.idVenta in ventas && ventas[d.idVenta].idUsuario == u.id) {
    }
  }

  /** The two variants differ for a role that is neither: such a user lists
      every sale but none of the details of a sale made by someone else. */
  lemma VariantesDifieren(u: Usuario, v: Venta, d: Detalle)
    requires u.rol.OtroRol? && v.idUsuario != u.id && d.idVenta == v.idVenta
    ensures var ventas := map[v.idVenta := v];
      v.idVenta in VentasVisibles(u, ventas) && DetallesVisibles(u, ventas, [d]) == []
  {
    var ventas := map[v.idVenta := v];
    assert [d] == [] + [d];
    assert !DeVentaDeUsuario(ventas, u.id)(d);
  }

  /** `ClienteViewSet.get_queryset`: the cashier's filter names `id_usuario`,
      which `Cliente` does not have, so a cashier's listing fails; other roles
      list every client. */
  function ClientesVisibles<C>(u: Usuario, clientes: seq<C>): (r: Option<seq<C>>)
    ensures r.None? <==> u.rol == Cajero
    ensures r.Some? ==> r.value == clientes
  {
    if u.rol == Cajero then None else Some(clientes)
  }

  /** `ClienteViewSet.partial_update`: a cashier's body is cut down to the
      fields a cashier may edit; anyone else's is passed on as it came. */
  function CamposEditables<V>(u: Usuario, datos: map<string, V>): (r: map<string, V>)
    ensures u.rol == Cajero ==> r.Keys == datos.Keys * CAMPOS_CAJERO
    ensures forall k :: k in r ==> k in datos && r[k] == datos[k]
    ensures u.rol != Cajero ==> r == datos
  {
    if u.rol == Cajero then map k | k in datos && k in CAMPOS_CAJERO :: datos[k] else datos
  }

  /** The field filter keeps exactly what `ClientePermission` lets a cashier
      PATCH: the filtered body always passes it, and the filter removes
      nothing from a body that already passed. */
  lemma CamposEditablesPermitidos<V>(p: Peticion, datos: map<string, V>)
    requires p.usuario.rol == Cajero && p.metodo == Patch
    ensures ClienteObjeto(p, CamposEditables(p.usuario, datos).Keys)
    ensures ClienteObjeto(p, datos.Keys) ==> CamposEditables(p.usuario, datos) == datos
  {
  }
}
