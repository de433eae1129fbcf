/** The new-sale screen of `frontend/src/components/ventas/NuevaVenta.jsx`.
    The component's state hooks are the fields of `NuevaVenta`; each handler is a
    method that replaces them as the `set...` calls do. This variant keeps no stock
    in the cart lines: `actualizarCantidad` looks the stock up in the current
    search results. */
module NuevaVentaComponentes {
  import opened Comun
  import opened Carrito

  const ERROR_BUSQUEDA := "Error al buscar productos"
  const SIN_TOKEN := "No hay token de autenticación"
  const RESPUESTA_INVALIDA := "Respuesta no válida del servidor"
  const ERROR_VENTA := "Error al procesar la venta"

  /** `productosEncontrados.find(p => p.id_producto === id)`, as an index. */
  function BuscarProducto(ps: seq<Producto>, id: int): (r: Option<nat>)
    ensures r.Some? ==> r.value < |ps| && ps[r.value].idProducto == id
    ensures r.Some? ==> forall k :: 0 <= k < r.value ==> ps[k].idProducto != id
    ensures r.None? <==> forall k :: 0 <= k < |ps| ==> ps[k].idProducto != id
  {
    Primero(ps, (x: Producto) => x.idProducto == id)
  }


  /** What the POST to the sales endpoint gave back. */
  datatype RespuestaVenta =
    | FalloRed(mensaje: string)                     // fetch itself threw
    | NoJson                                        // the content type is not JSON
    | Json(ok: bool, detail: Option<string>, error: Option<string>)

  /** The message the catch block stores: `error.message || 'Error al procesar la venta'`,
      where a non-OK JSON answer threw `data.detail || data.error || 'Error al procesar la venta'`. */
  function MensajeFallo(r: RespuestaVenta): string
  {
    match r
    case FalloRed(m) => if m != "" then m else ERROR_VENTA
    case NoJson => RESPUESTA_INVALIDA
    case Json(_, detail, error) =>
      if NoVacio(detail) then detail.value
      else if NoVacio(error) then error.value
      else ERROR_VENTA
  }

  predicate Exitosa(r: RespuestaVenta)
  {
    r.Json? && r.ok
  }

  class NuevaVenta {
    var carrito: seq<Item>
    var cliente: Option<int>
    var busquedaProducto: string
    var busquedaCliente: string
    var productosEncontrados: seq<Producto>
    var metodoPago: string
    var loading: bool
    var error: Option<string>

    /** The cart never holds two lines of the same product. */
    ghost predicate Valid()
      reads this
    {
      IdsUnicos(carrito) && forall i :: 0 <= i < |carrito| ==> carrito[i].stockGuardado.None?
    }

    constructor ()
      ensures Valid()
      ensures carrito == [] && cliente == None && busquedaProducto == "" && busquedaCliente == ""
      ensures productosEncontrados == [] && metodoPago == EFECTIVO && !loading && error == None
    {
      carrito := [];
      cliente := None;
      busquedaProducto := "";
      busquedaCliente := "";
      productosEncontrados := [];
      metodoPago := EFECTIVO;
      loading := false;
      error := None;
    }

    /** `buscarProductos`: an empty term clears the results; otherwise the server's
        answer (`None` when the request failed) replaces them or sets an error. */
    method BuscarProductos(termino: string, respuesta: Option<seq<Producto>>)
      modifies this
      ensures termino == "" ==> productosEncontrados == [] && error == old(error)
      ensures termino != "" && respuesta.Some? ==>
        productosEncontrados == respuesta.value && error == old(error)
      ensures termino != "" && respuesta.None? ==>
        productosEncontrados == old(productosEncontrados) && error == Some(ERROR_BUSQUEDA)
      ensures carrito == old(carrito) && cliente == old(cliente) && metodoPago == old(metodoPago)
      ensures busquedaProducto == old(busquedaProducto) && busquedaCliente == old(busquedaCliente)
      ensures loading == old(loading)
    {
      if termino == "" {
        productosEncontrados := [];
        return;
      }
      match respuesta
      case Some(ps) =>
        productosEncontrados := ps;
      case None =>
        error := Some(ERROR_BUSQUEDA);
    }

    /** `agregarAlCarrito`: a product already in the cart has its quantity raised by
        one when the stock allows it; a new product is appended with quantity 1
        when it has stock. A rejection only sets the error; a success clears the
        search. */
    method AgregarAlCarrito(p: Producto)
      requires Valid()
      modifies this
      ensures Valid()
      ensures var i := Buscar(old(carrito), p.idProducto);
        if i.Some? then
          if old(carrito)[i.value].cantidad + 1 > p.stock then
            carrito == old(carrito) && error == Some(SIN_STOCK_SUFICIENTE)
            && busquedaProducto == old(busquedaProducto)
            && productosEncontrados == old(productosEncontrados)
          else
            carrito == old(carrito)[i.value := old(carrito)[i.value].(cantidad := old(carrito)[i.value].cantidad + 1)]
            && error == old(error) && busquedaProducto == "" && productosEncontrados == []
        else
          if p.stock < 1 then
            carrito == old(carrito) && error == Some(SIN_STOCK)
            && busquedaProducto == old(busquedaProducto)
            && productosEncontrados == old(productosEncontrados)
          else
            carrito == old(carrito) + [NuevoItem(p, false)]
            && error == old(error) && busquedaProducto == "" && productosEncontrados == []
      ensures cliente == old(cliente) && busquedaCliente == old(busquedaCliente)
      ensures metodoPago == old(metodoPago) && loading == old(loading)
    {
      var enCarrito := Buscar(carrito, p.idProducto);
      match enCarrito {
      case Some(i) =>
        if carrito[i].cantidad + 1 > p.stock {
          error := Some(SIN_STOCK_SUFICIENTE);
          return;
        }
        IncrementarUnico(carrito, p.idProducto, i);
        ReemplazarUnico(carrito, i, carrito[i].(cantidad := carrito[i].cantidad + 1));
        carrito := Incrementar(carrito, p.idProducto);
      case None =>
        if p.stock < 1 {
          error := Some(SIN_STOCK);
          return;
        }
        AgregarNuevoUnico(carrito, NuevoItem(p, false));
        carrito := carrito + [NuevoItem(p, false)];
      }
      busquedaProducto := "";
      productosEncontrados := [];
    }

    /** `actualizarCantidad`: the stock is read from the product in the search
        results; a quantity above it is rejected, a quantity below 1 removes the
        line, any other sets it. The lookup must succeed: the source dereferences
        its result unconditionally. */
    method ActualizarCantidad(id: int, nuevaCantidad: int)
      requires Valid()
      requires BuscarProducto(productosEncontrados, id).Some?
      modifies this
      ensures Valid()
      ensures var stock := old(productosEncontrados)[BuscarProducto(old(productosEncontrados), id).value].stock;
        if nuevaCantidad > stock then
          carrito == old(carrito) && error == Some(SIN_STOCK_SUFICIENTE)
        else if nuevaCantidad < 1 then
          carrito == Quitar(old(carrito), id) && error == old(error)
        else
          carrito == FijarCantidad(old(carrito), id, nuevaCantidad) && error == old(error)
      ensures Buscar(old(carrito), id).None? ==> carrito == old(carrito)
      ensures var i := Buscar(old(carrito), id);
        i.Some? && nuevaCantidad <= old(productosEncontrados)[BuscarProducto(old(productosEncontrados), id).value].stock ==>
          carrito == if nuevaCantidad < 1 then old(carrito)[..i.value] + old(carrito)[i.value + 1..]
                     else old(carrito)[i.value := old(carrito)[i.value].(cantidad := nuevaCantidad)]
      ensures cliente == old(cliente) && busquedaCliente == old(busquedaCliente)
      ensures busquedaProducto == old(busquedaProducto)
      ensures productosEncontrados == old(productosEncontrados)
      ensures metodoPago == old(metodoPago) && loading == old(loading)
    {
      var producto := productosEncontrados[BuscarProducto(productosEncontrados, id).value];
      if nuevaCantidad > producto.stock {
        error := Some(SIN_STOCK_SUFICIENTE);
        return;
      }
      match Buscar(carrito, id) {
        case None =>
          QuitarAusente(carrito, id);
          FijarCantidadAusente(carrito, id, nuevaCantidad);
        case Some(i) =>
          QuitarPresente(carrito, id, i);
          QuitarLineaUnico(carrito, i);
          FijarCantidadUnico(carrito, id, nuevaCantidad, i);
          ReemplazarUnico(carrito, i, carrito[i].(cantidad := nuevaCantidad));
      }
      if nuevaCantidad < 1 {
        carrito := Quitar(carrito, id);
      } else {
        carrito := FijarCantidad(carrito, id, nuevaCantidad);
      }
    }

    /** `calcularTotal`. */
    function CalcularTotal(): int
      reads this
    {
      Total(carrito)
    }

    /** `procesarVenta`: an empty cart is never sent; without a token nothing is
        sent either; otherwise the payload of the current cart is posted and, on a
        JSON answer with an OK status, the form is reset. The returned value is
        the payload posted, if any. */
    method ProcesarVenta(token: Option<string>, fecha: string, respuesta: RespuestaVenta)
      returns (enviada: Option<VentaPayload>)
      requires Valid()
      modifies this
      ensures Valid()
      ensures old(carrito) == [] ==>
        enviada == None && error == Some(CARRITO_VACIO) && loading == old(loading)
        && carrito == [] && cliente == old(cliente) && metodoPago == old(metodoPago)
        && busquedaCliente == old(busquedaCliente)
      ensures old(carrito) != [] && !NoVacio(token) ==>
        enviada == None && error == Some(SIN_TOKEN) && !loading
        && carrito == old(carrito) && cliente == old(cliente) && metodoPago == old(metodoPago)
        && busquedaCliente == old(busquedaCliente)
      ensures old(carrito) != [] && NoVacio(token) ==>
        enviada == Some(ConstruirVenta(old(carrito), old(cliente), old(metodoPago), fecha))
        && !loading
        && if Exitosa(respuesta) then
             carrito == [] && cliente == None && busquedaCliente == ""
             && metodoPago == EFECTIVO && error == None
           else
             carrito == old(carrito) && cliente == old(cliente)
             && busquedaCliente == old(busquedaCliente) && metodoPago == old(metodoPago)
             && error == Some(MensajeFallo(respuesta))
      ensures busquedaProducto == old(busquedaProducto)
      ensures productosEncontrados == old(productosEncontrados)
    {
      if carrito == [] {
        error := Some(CARRITO_VACIO);
        return None;
      }
      loading := true;
      error := None;
      if !NoVacio(token) {
        error := Some(SIN_TOKEN);
        loading := false;
        return None;
      }
      var venta := ConstruirVenta(carrito, cliente, metodoPago, fecha);
      enviada := Some(venta);
      if Exitosa(respuesta) {
        carrito := [];
        cliente := None;
        busquedaCliente := "";
        metodoPago := EFECTIVO;
        error := None;
      } else {
        error := Some(MensajeFallo(respuesta));
      }
      loading := false;
    }
  }

  /** The lookup `actualizarCantidad` needs always fails after a successful add:
      `agregarAlCarrito` has emptied the search results it reads from, so the
      source dereferences `undefined`. The result is that lookup, made right after
      the product was found and added. */
  method ActualizarTrasAgregar(p: Producto) returns (encontrado: Option<nat>)
    requires p.stock >= 1
    ensures encontrado == None
  {
    var pantalla := new NuevaVenta();
    pantalla.BuscarProductos(p.nombre + "?", Some([p]));
    pantalla.AgregarAlCarrito(p);
    encontrado := BuscarProducto(pantalla.productosEncontrados, p.idProducto);
  }
}
