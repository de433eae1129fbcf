/** The new-sale screen of `frontend/src/pages/admin/ventas/NuevaVenta.jsx`.
    Same handlers as the components variant, except that a new cart line stores
    the product's stock and `actualizarCantidad` checks against that stored stock,
    and the sale is posted through the sales API service. */
module NuevaVentaAdmin {
  import opened Comun
  import opened Carrito

  const ERROR_BUSQUEDA := "Error al buscar productos"

  /** What `ventasAPI.crear` did: returned the created sale, or threw. */
  datatype ResultadoCrear = Creada(idVenta: int) | Fallida(mensaje: string)

  class NuevaVenta {
    var carrito: seq<Item>
    var cliente: Option<int>
    var busquedaProducto: string
    var busquedaCliente: string
    var productosEncontrados: seq<Producto>
    var metodoPago: string
    var loading: bool
    var error: Option<string>

    /** Unique product ids; every line carries its stored stock and a quantity of
        at least 1. */
    ghost predicate Valid()
      reads this
    {
      && IdsUnicos(carrito)
      && forall i :: 0 <= i < |carrito| ==>
           carrito[i].stockGuardado.Some? && carrito[i].cantidad >= 1
    }

    constructor ()
      ensures Valid()
      ensures carrito == [] && cliente == None && busquedaProducto == "" && busquedaCliente == ""
      ensures productosEncontrados == [] && metodoPago == EFECTIVO && !loading && error == None
    {
      carrito := [];
      cliente := None;
      busquedaProducto := "";
      busquedaCliente := "";
      productosEncontrados := [];
      metodoPago := EFECTIVO;
      loading := false;
      error := None;
    }

    /** `buscarProductos` through `productosAPI.listar`: a success also clears
        the error. */
    method BuscarProductos(termino: string, respuesta: Option<seq<Producto>>)
      modifies this
      ensures termino == "" ==> productosEncontrados == [] && error == old(error)
      ensures termino != "" && respuesta.Some? ==>
        productosEncontrados == respuesta.value && error == None
      ensures termino != "" && respuesta.None? ==>
        productosEncontrados == old(productosEncontrados) && error == Some(ERROR_BUSQUEDA)
      ensures carrito == old(carrito) && cliente == old(cliente) && metodoPago == old(metodoPago)
      ensures busquedaProducto == old(busquedaProducto) && busquedaCliente == old(busquedaCliente)
      ensures loading == old(loading)
    {
      if termino == "" {
        productosEncontrados := [];
        return;
      }
      match respuesta
      case Some(ps) =>
        productosEncontrados := ps;
        error := None;
      case None =>
        error := Some(ERROR_BUSQUEDA);
    }

    /** `agregarAlCarrito`: as in the components variant, checked against the
        product's current stock; a new line records that stock. */
    method AgregarAlCarrito(p: Producto)
      requires Valid()
      modifies this
      ensures Valid()
      ensures var i := Buscar(old(carrito), p.idProducto);
        if i.Some? then
          if old(carrito)[i.value].cantidad + 1 > p.stock then
            carrito == old(carrito) && error == Some(SIN_STOCK_SUFICIENTE)
            && busquedaProducto == old(busquedaProducto)
            && productosEncontrados == old(productosEncontrados)
          else
            carrito == old(carrito)[i.value := old(carrito)[i.value].(cantidad := old(carrito)[i.value].cantidad + 1)]
            && carrito[i.value].cantidad <= p.stock
            && error == old(error) && busquedaProducto == "" && productosEncontrados == []
        else
          if p.stock < 1 then
            carrito == old(carrito) && error == Some(SIN_STOCK)
            && busquedaProducto == old(busquedaProducto)
            && productosEncontrados == old(productosEncontrados)
          else
            carrito == old(carrito) + [Item(p.idProducto, p.nombre, p.precio, 1, Some(p.stock))]
            && error == old(error) && busquedaProducto == "" && productosEncontrados == []
      ensures cliente == old(cliente) && busquedaCliente == old(busquedaCliente)
      ensures metodoPago == old(metodoPago) && loading == old(loading)
    {
      var enCarrito := Buscar(carrito, p.idProducto);
      match enCarrito {
      case Some(i) =>
        if carrito[i].cantidad + 1 > p.stock {
          error := Some(SIN_STOCK_SUFICIENTE);
          return;
        }
        var actual := carrito[i];
        IncrementarUnico(carrito, p.idProducto, i);
        ReemplazarUnico(carrito, i, actual.(cantidad := actual.cantidad + 1));
        carrito := Incrementar(carrito, p.idProducto);
      case None =>
        if p.stock < 1 {
          error := Some(SIN_STOCK);
          return;
        }
        var linea := NuevoItem(p, true);
        assert linea == Item(p.idProducto, p.nombre, p.precio, 1, Some(p.stock));
        AgregarNuevoUnico(carrito, linea);
        carrito := carrito + [linea];
      }
      busquedaProducto := "";
      productosEncontrados := [];
    }

    /** `actualizarCantidad`: the line's stored stock bounds the new quantity; a
        quantity above it is rejected and leaves the cart as it was, a quantity
        below 1 removes exactly that line, any other changes only that line's
        quantity. The line must be in the cart: the handler is wired to the
        cart's rows and dereferences the line it finds. */
    method ActualizarCantidad(id: int, nuevaCantidad: int)
      requires Valid()
      requires Buscar(carrito, id).Some?
      modifies this
      ensures Valid()
      ensures var i := Buscar(old(carrito), id).value;
        var stock := old(carrito)[i].stockGuardado.value;
        if nuevaCantidad > stock then
          carrito == old(carrito) && error == Some(SIN_STOCK_SUFICIENTE)
        else if nuevaCantidad < 1 then
          carrito == old(carrito)[..i] + old(carrito)[i + 1..] && error == old(error)
        else
          carrito == old(carrito)[i := old(carrito)[i].(cantidad := nuevaCantidad)]
          && carrito[i].cantidad <= carrito[i].stockGuardado.value
          && error == old(error)
      ensures cliente == old(cliente) && busquedaCliente == old(busquedaCliente)
      ensures busquedaProducto == old(busquedaProducto)
      ensures productosEncontrados == old(productosEncontrados)
      ensures metodoPago == old(metodoPago) && loading == old(loading)
    {
      var i := Buscar(carrito, id).value;
      var itemCarrito := carrito[i];
      if nuevaCantidad > itemCarrito.stockGuardado.value {
        error := Some(SIN_STOCK_SUFICIENTE);
        return;
      }
      if nuevaCantidad < 1 {
        QuitarPresente(carrito, id, i);
        QuitarLineaUnico(carrito, i);
        carrito := Quitar(carrito, id);
      } else {
        FijarCantidadUnico(carrito, id, nuevaCantidad, i);
        ReemplazarUnico(carrito, i, itemCarrito.(cantidad := nuevaCantidad));
        carrito := FijarCantidad(carrito, id, nuevaCantidad);
      }
    }

    /** `calcularTotal`. */
    function CalcularTotal(): int
      reads this
    {
      Total(carrito)
    }

    /** `procesarVenta`: an empty cart is never sent; otherwise the payload of the
        current cart is posted and, when the API call returns, the cart is
        emptied, the client deselected and the payment method reset to cash. */
    method ProcesarVenta(fecha: string, resultado: ResultadoCrear)
      returns (enviada: Option<VentaPayload>)
      requires Valid()
      modifies this
      ensures Valid()
      ensures old(carrito) == [] ==>
        enviada == None && error == Some(CARRITO_VACIO) && loading == old(loading)
        && carrito == [] && cliente == old(cliente) && metodoPago == old(metodoPago)
        && busquedaCliente == old(busquedaCliente)
      ensures old(carrito) != [] ==>
        enviada == Some(ConstruirVenta(old(carrito), old(cliente), old(metodoPago), fecha))
        && !loading
        && match resultado
           case Creada(_) =>
             carrito == [] && cliente == None && busquedaCliente == ""
             && metodoPago == EFECTIVO && error == None
           case Fallida(m) =>
             carrito == old(carrito) && cliente == old(cliente)
             && busquedaCliente == old(busquedaCliente) && metodoPago == old(metodoPago)
             && error == Some(m)
      ensures busquedaProducto == old(busquedaProducto)
      ensures productosEncontrados == old(productosEncontrados)
    {
      if carrito == [] {
        error := Some(CARRITO_VACIO);
        return None;
      }
      loading := true;
      error := None;
      var ventaData := ConstruirVenta(carrito, cliente, metodoPago, fecha);
      enviada := Some(ventaData);
      match resultado {
        case Creada(_) =>
          carrito := [];
          cliente := None;
          busquedaCliente := "";
          metodoPago := EFECTIVO;
          error := None;
        case Fallida(m) =>
          error := Some(m);
      }
      loading := false;
    }
  }

  /** Right after a product with stock was found and added to an empty cart,
      `actualizarCantidad` finds the new line in the cart, and raising it to
      the product's whole stock is accepted. */
  method ActualizarTrasAgregar(p: Producto) returns (encontrado: Option<nat>, cantidad: int)
    requires p.stock >= 1
    ensures encontrado == Some(0) && cantidad == p.stock
  {
    var pantalla := new NuevaVenta();
    pantalla.BuscarProductos(p.nombre + "?", Some([p]));
    pantalla.AgregarAlCarrito(p);
    encontrado := Buscar(pantalla.carrito, p.idProducto);
    pantalla.ActualizarCantidad(p.idProducto, p.stock);
    cantidad := pantalla.carrito[0].cantidad;
  }
}
