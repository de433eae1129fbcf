/** The view sets of `backend/apps/inventario/views.py`: which permission
    class guards each action, the product and movement list filters, the
    cashier restriction on product updates and the low-stock list. Query
    parameters arrive already read: a missing or empty one is `None`. */
module InventarioVistas {
  import opened Comun
  import opened Permisos
  import opened InventarioModelos

  // ---------------------------------------------------------------------------
  // Permissions

  datatype Clase = ClaseEsAdministrador | ClaseEsCajero | ClaseAccionesInventario

  /** Whether a permission class lets the request through. */
  predicate Concede(c: Clase, p: Peticion)
  {
    match c
    case ClaseEsAdministrador => EsAdministrador(p)
    case ClaseEsCajero => EsCajero(p)
    case ClaseAccionesInventario => PorMetodo(p)
  }

  const SOLO_ADMIN_PRODUCTO: set<string> := {"create", "destroy", "update"}

  /** `ProductoViewSet.get_permissions`. */
  function PermisoProducto(accion: string): Clase
  {
    if accion in SOLO_ADMIN_PRODUCTO then ClaseEsAdministrador else ClaseAccionesInventario
  }

  /** `CategoriaViewSet.get_permissions`. */
  function PermisoCategoria(accion: string): Clase
  {
    if accion in {"list", "retrieve"} then ClaseEsCajero else ClaseEsAdministrador
  }

  /** What the product and category view sets grant: an authenticated cashier
      may not create, replace or delete a product, and may otherwise act with
      the cashier methods (PATCH for a partial update); categories they may
      only list and read. An administrator passes every one of them. */
  lemma ProductosYCategorias(p: Peticion, accion: string)
    requires p.usuario.autenticado
    ensures p.usuario.rol == Cajero ==>
      (Concede(PermisoProducto(accion), p) <==> accion !in SOLO_ADMIN_PRODUCTO && p.metodo in METODOS_CAJERO)
    ensures p.usuario.rol == Cajero ==>
      (Concede(PermisoCategoria(accion), p) <==> accion == "list" || accion == "retrieve")
    ensures p.usuario.rol == Administrador ==>
      Concede(PermisoProducto(accion), p) && Concede(PermisoCategoria(accion), p)
  {
  }

  // ---------------------------------------------------------------------------
  // Product search

  /** The database collation's folding of one character is a parameter,
      `plegar`: case-insensitive collations fold at least the letters' case,
      accent-insensitive ones the accents too. Lower-casing of the ASCII
      letters is the smallest such folding. */
  function Minuscula(c: char): char
  {
    if 'A' <= c <= 'Z' then (c as int + 32) as char else c
  }

  /** Folding twice folds no further. */
  ghost predicate Idempotente(plegar: char -> char)
  {
    forall c :: plegar(plegar(c)) == plegar(c)
  }

  lemma MinusculaIdempotente()
    ensures Idempotente(Minuscula)
  {
  }

  function Minusculas(s: string, plegar: char -> char): (r: string)
    ensures |r| == |s| && forall i :: 0 <= i < |s| ==> r[i] == plegar(s[i])
  {
    seq(|s|, i requires 0 <= i < |s| => plegar(s[i]))
  }

  predicate EmpiezaCon(s: string, t: string)
  {
    |t| <= |s| && s[..|t|] == t
  }

  /** `t` occurs somewhere in `s`. */
  predicate Contiene(s: string, t: string)
    decreases |s|
  {
    EmpiezaCon(s, t) || (s != [] && Contiene(s[1..], t))
  }

  /** The `__icontains` lookup under the folding `plegar`. */
  predicate ContieneSinMayusculas(s: string, t: string, plegar: char -> char)
  {
    Contiene(Minusculas(s, plegar), Minusculas(t, plegar))
  }

  /** Under any folding that folds no further when applied twice, the case
      (or accent) of the search term does not matter. */
  lemma TerminoSinMayusculas(s: string, t: string, plegar: char -> char)
    requires Idempotente(plegar)
    ensures ContieneSinMayusculas(s, Minusculas(t, plegar), plegar) == ContieneSinMayusculas(s, t, plegar)
  {
    assert Minusculas(Minusculas(t, plegar), plegar) == Minusculas(t, plegar);
  }

  /** The search of `?buscar=`: the name or the bar code contains the term. */
  function Coincide(termino: string, plegar: char -> char): Producto -> bool
  {
    (p: Producto) => ContieneSinMayusculas(p.nombre, termino, plegar)
                     || (p.codigoBarras.Some? && ContieneSinMayusculas(p.codigoBarras.value, termino, plegar))
  }

  function DeCategoria(c: int): Producto -> bool
  {
    (p: Producto) => p.categoria == Some(c)
  }

  function NombreEstado(e: EstadoProducto): string
  {
    match e
    case Activo => "activo"
    case Inactivo => "inactivo"
  }

  function DeEstado(e: string): Producto -> bool
  {
    (p: Producto) => NombreEstado(p.estado) == e
  }

  /** `ProductoViewSet.get_queryset`: each parameter given narrows the list. */
  function BuscarProductos(ps: seq<Producto>, buscar: Option<string>, categoria: Option<int>,
                           estado: Option<string>, plegar: char -> char): seq<Producto>
  {
    var q1 := if NoVacio(buscar) then Filtrar(ps, Coincide(buscar.value, plegar)) else ps;
    var q2 := if categoria.Some? then Filtrar(q1, DeCategoria(categoria.value)) else q1;
    if NoVacio(estado) then Filtrar(q2, DeEstado(estado.value)) else q2
  }

  /** Each parameter as a test on one product; a missing one holds everywhere. */
  function PorBusqueda(buscar: Option<string>, plegar: char -> char): Producto -> bool
  {
    (p: Producto) => NoVacio(buscar) ==> Coincide(buscar.value, plegar)(p)
  }

  function PorCategoria(categoria: Option<int>): Producto -> bool
  {
    (p: Producto) => categoria.Some? ==> DeCategoria(categoria.value)(p)
  }

  function PorEstado(estado: Option<string>): Producto -> bool
  {
    (p: Producto) => NoVacio(estado) ==> DeEstado(estado.value)(p)
  }

  function PorBusquedaYCategoria(buscar: Option<string>, categoria: Option<int>, plegar: char -> char): Producto -> bool
  {
    (p: Producto) => PorBusqueda(buscar, plegar)(p) && PorCategoria(categoria)(p)
  }

  /** The conjunction of the three tests. */
  function Criterio(buscar: Option<string>, categoria: Option<int>, estado: Option<string>, plegar: char -> char): Producto -> bool
  {
    (p: Producto) => PorBusquedaYCategoria(buscar, categoria, plegar)(p) && PorEstado(estado)(p)
  }

  lemma PorBusquedaFiltra(s: seq<Producto>, buscar: Option<string>, plegar: char -> char)
    ensures (if NoVacio(buscar) then Filtrar(s, Coincide(buscar.value, plegar)) else s) == Filtrar(s, PorBusqueda(buscar, plegar))
  {
    if NoVacio(buscar) {
      FiltrarEquivalentes(s, Coincide(buscar.value, plegar), PorBusqueda(buscar, plegar));
    } else {
      FiltrarTodo(s, PorBusqueda(buscar, plegar));
    }
  }

  lemma PorCategoriaFiltra(s: seq<Producto>, categoria: Option<int>)
    ensures (if categoria.Some? then Filtrar(s, DeCategoria(categoria.value)) else s)
         == Filtrar(s, PorCategoria(categoria))
  {
    if categoria.Some? {
      FiltrarEquivalentes(s, DeCategoria(categoria.value), PorCategoria(categoria));
    } else {
      FiltrarTodo(s, PorCategoria(categoria));
    }
  }

  lemma PorEstadoFiltra(s: seq<Producto>, estado: Option<string>)
    ensures (if NoVacio(estado) then Filtrar(s, DeEstado(estado.value)) else s) == Filtrar(s, PorEstado(estado))
  {
    if NoVacio(estado) {
      FiltrarEquivalentes(s, DeEstado(estado.value), PorEstado(estado));
    } else {
      FiltrarTodo(s, PorEstado(estado));
    }
  }

  /** The filters are conjunctive and keep the stored order; without any
      parameter every product is listed. */
  lemma BuscarConjuntivo(ps: seq<Producto>, buscar: Option<string>, categoria: Option<int>,
                         estado: Option<string>, plegar: char -> char)
    ensures BuscarProductos(ps, buscar, categoria, estado, plegar) == Filtrar(ps, Criterio(buscar, categoria, estado, plegar))
    ensures buscar.None? && categoria.None? && estado.None? ==> BuscarProductos(ps, buscar, categoria, estado, plegar) == ps
  {
    var q1 := if NoVacio(buscar) then Filtrar(ps, Coincide(buscar.value, plegar)) else ps;
    var q2 := if categoria.Some? then Filtrar(q1, DeCategoria(categoria.value)) else q1;
    PorBusquedaFiltra(ps, buscar, plegar);
    PorCategoriaFiltra(q1, categoria);
    PorEstadoFiltra(q2, estado);
    FiltrarFiltrar(ps, PorBusqueda(buscar, plegar), PorCategoria(categoria), PorBusquedaYCategoria(buscar, categoria, plegar));
    FiltrarFiltrar(ps, PorBusquedaYCategoria(buscar, categoria, plegar), PorEstado(estado), Criterio(buscar, categoria, estado, plegar));
    if buscar.None? && categoria.None? && estado.None? {
      FiltrarTodo(ps, Criterio(buscar, categoria, estado, plegar));
    }
  }

  // ---------------------------------------------------------------------------
  // Updates and the low-stock list

  const SOLO_STOCK := "Cajeros solo pueden actualizar el stock"

  /** `ProductoViewSet.perform_update`: the data that is saved, or the error. */
  function PerformUpdate<V>(rol: Rol, datos: map<string, V>): (r: Result<map<string, V>>)
    ensures r.Err? <==> rol == Cajero && !(datos.Keys <= {"stock"})
    ensures r.Err? ==> r.msg == SOLO_STOCK
    ensures r.Ok? ==> r.value == datos
  {
    if rol == Cajero && datos.Keys - {"stock"} != {} then Err(SOLO_STOCK) else Ok(datos)
  }

  /** The answer of a list endpoint. */
  datatype RespuestaLista = Listado(productos: seq<Producto>) | ErrorServidor(mensaje: string)

  const NOMBRE_NO_DEFINIDO := "name 'models' is not defined"

  /** `stock_bajo` as written: the filter names `models.F`, and `models` is not
      imported in that file, so the request fails before any query. */
  function StockBajoTalCual(ps: seq<Producto>): RespuestaLista
  {
    ErrorServidor(NOMBRE_NO_DEFINIDO)
  }

  function Reponer(): Producto -> bool
  {
    (p: Producto) => NecesitaReposicion(p)
  }

  /** `stock_bajo` as intended: `stock <= stock_minimo`. */
  function StockBajo(ps: seq<Producto>): RespuestaLista
  {
    Listado(Filtrar(ps, Reponer()))
  }

  /** The intended list holds exactly the products that need restocking, in
      their stored order, while the endpoint as written lists nothing. */
  lemma StockBajoListaReposiciones(ps: seq<Producto>)
    ensures StockBajo(ps).Listado? && StockBajoTalCual(ps).ErrorServidor?
    ensures forall p :: p in StockBajo(ps).productos <==> p in ps && NecesitaReposicion(p)
    ensures forall p :: p in ps ==> (p in StockBajo(ps).productos <==> p.stock <= p.stockMinimo)
  {
    var r := StockBajo(ps).productos;
    FiltrarMiembros(ps, Reponer());
    forall p ensures p in r <==> p in ps && NecesitaReposicion(p) {
      assert Reponer()(p) == NecesitaReposicion(p);
    }
  }

  // ---------------------------------------------------------------------------
  // Movements

  /** A stored movement with its `fecha_movimiento`. */
  datatype Registro = Registro(fecha: int, movimiento: Movimiento)

  function EnRango(inicio: int, fin: int): Registro -> bool
  {
    (r: Registro) => inicio <= r.fecha <= fin
  }

  function DeTipo(tipo: string): Registro -> bool
  {
    (r: Registro) => r.movimiento.tipo == tipo
  }

  /** `MovimientoInventarioViewSet.get_queryset`. */
  function FiltrarMovimientos(rs: seq<Registro>, inicio: Option<int>, fin: Option<int>,
                              tipo: Option<string>): seq<Registro>
  {
    var q := if inicio.Some? && fin.Some? then Filtrar(rs, EnRango(inicio.value, fin.value)) else rs;
    if NoVacio(tipo) then Filtrar(q, DeTipo(tipo.value)) else q
  }

  /** The date range counts only with both bounds, and the type filter applies
      on its own: a listed movement has the type asked for and, when both
      bounds were given, a date between them, and every such movement is
      listed. */
  lemma MovimientosFiltrados(rs: seq<Registro>, inicio: Option<int>, fin: Option<int>, tipo: Option<string>)
    ensures inicio.None? || fin.None? ==> FiltrarMovimientos(rs, inicio, fin, tipo) == FiltrarMovimientos(rs, None, None, tipo)
    ensures forall r :: r in FiltrarMovimientos(rs, inicio, fin, tipo) <==>
      r in rs && (inicio.Some? && fin.Some? ==> inicio.value <= r.fecha <= fin.value)
      && (NoVacio(tipo) ==> r.movimiento.tipo == tipo.value)
  {
    var q := if inicio.Some? && fin.Some? then Filtrar(rs, EnRango(inicio.value, fin.value)) else rs;
    if inicio.Some? && fin.Some? {
      FiltrarMiembros(rs, EnRango(inicio.value, fin.value));
    }
    if NoVacio(tipo) {
      FiltrarMiembros(q, DeTipo(tipo.value));
    }
    forall r ensures r in FiltrarMovimientos(rs, inicio, fin, tipo) <==>
      r in rs && (inicio.Some? && fin.Some? ==> inicio.value <= r.fecha <= fin.value)
      && (NoVacio(tipo) ==> r.movimiento.tipo == tipo.value)
    {
      if inicio.Some? && fin.Some? {
        assert EnRango(inicio.value, fin.value)(r) == (inicio.value <= r.fecha <= fin.value);
      }
      if NoVacio(tipo) {
        assert DeTipo(tipo.value)(r) == (r.movimiento.tipo == tipo.value);
      }
    }
  }
}
