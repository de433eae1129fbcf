/** The sale cart shared by the two `NuevaVenta` screens: the records involved,
    the pure cart transformations the handlers build with `find`, `map`,
    `filter`, spread and `reduce`, and the sale payload sent to the backend.
    Amounts are integer cents. */
module Carrito {
  import opened Comun

  /** A product as returned by the product search. */
  datatype Producto = Producto(idProducto: int, nombre: string, precio: int, stock: int)

  /** A cart line. The admin screen also records the product's stock when the
      line is created (`stockGuardado`); the components screen does not. */
  datatype Item = Item(idProducto: int, nombre: string, precio: int, cantidad: int,
                       stockGuardado: Option<int>)

  /** One line of the sale payload. */
  datatype DetallePayload = DetallePayload(idProducto: int, cantidad: int,
                                           precioUnitario: int, subtotal: int)

  /** The body posted to the sales endpoint. */
  datatype VentaPayload = VentaPayload(idCliente: Option<int>, metodoPago: string,
                                       fecha: string, total: int,
                                       detalles: seq<DetallePayload>)

  const EFECTIVO := "efectivo"
  const SIN_STOCK_SUFICIENTE := "No hay suficiente stock disponible"
  const SIN_STOCK := "No hay stock disponible"
  const CARRITO_VACIO := "El carrito está vacío"

  /** Every product id occurs at most once in the cart. */
  ghost predicate IdsUnicos(c: seq<Item>)
  {
    forall i, j :: 0 <= i < j < |c| ==> c[i].idProducto != c[j].idProducto
  }

  /** `carrito.find(item => item.id_producto === id)`, as an index. */
  function Buscar(c: seq<Item>, id: int): (r: Option<nat>)
    ensures r.Some? ==> r.value < |c| && c[r.value].idProducto == id
    ensures r.Some? ==> forall k :: 0 <= k < r.value ==> c[k].idProducto != id
    ensures r.None? <==> forall k :: 0 <= k < |c| ==> c[k].idProducto != id
  {
    Primero(c, (x: Item) => x.idProducto == id)
  }


  /** The `map` that raises the quantity of the lines of product `id` by one. */
  function Incrementar(c: seq<Item>, id: int): seq<Item>
  {
    seq(|c|, i requires 0 <= i < |c| =>
      if c[i].idProducto == id then c[i].(cantidad := c[i].cantidad + 1) else c[i])
  }

  /** The `map` that sets the quantity of the lines of product `id` to `n`. */
  function FijarCantidad(c: seq<Item>, id: int, n: int): seq<Item>
  {
    seq(|c|, i requires 0 <= i < |c| =>
      if c[i].idProducto == id then c[i].(cantidad := n) else c[i])
  }

  /** The test `item => item.id_producto !== id`. */
  function DeOtroProducto(id: int): Item -> bool
  {
    (it: Item) => it.idProducto != id
  }

  /** The `filter` that drops the lines of product `id`. */
  function Quitar(c: seq<Item>, id: int): seq<Item>
  {
    Filtrar(c, DeOtroProducto(id))
  }

  /** A new cart line for a product, with quantity 1. */
  function NuevoItem(p: Producto, guardaStock: bool): Item
  {
    Item(p.idProducto, p.nombre, p.precio, 1, if guardaStock then Some(p.stock) else None)
  }

  function Importe(it: Item): int
  {
    it.precio * it.cantidad
  }

  /** `calcularTotal`: the `reduce` of `precio * cantidad`, starting from 0. */
  function Total(c: seq<Item>): int
  {
    TotalPor(c, Importe)
  }

  function Detalles(c: seq<Item>): seq<DetallePayload>
  {
    seq(|c|, i requires 0 <= i < |c| =>
      DetallePayload(c[i].idProducto, c[i].cantidad, c[i].precio, c[i].precio * c[i].cantidad))
  }

  function Subtotales(d: seq<DetallePayload>): seq<int>
  {
    seq(|d|, i requires 0 <= i < |d| => d[i].subtotal)
  }

  /** `cliente?.id_cliente || null`: a missing client and the falsy id 0 both give null. */
  function IdClientePayload(cliente: Option<int>): Option<int>
  {
    if cliente.Some? && cliente.value != 0 then cliente else None
  }

  /** The payload built in `procesarVenta`. */
  function ConstruirVenta(c: seq<Item>, cliente: Option<int>, metodoPago: string,
                          fecha: string): VentaPayload
  {
    VentaPayload(IdClientePayload(cliente), metodoPago, fecha, Total(c), Detalles(c))
  }

  // ---------------------------------------------------------------------------
  // Properties of the cart transformations

  /** On a cart with unique ids, incrementing touches exactly the line found. */
  lemma IncrementarUnico(c: seq<Item>, id: int, i: nat)
    requires IdsUnicos(c) && Buscar(c, id) == Some(i)
    ensures Incrementar(c, id) == c[i := c[i].(cantidad := c[i].cantidad + 1)]
  {
    assert forall k :: 0 <= k < |c| && k != i ==> c[k].idProducto != id;
  }

  /** On a cart with unique ids, setting a quantity touches exactly the line found. */
  lemma FijarCantidadUnico(c: seq<Item>, id: int, n: int, i: nat)
    requires IdsUnicos(c) && Buscar(c, id) == Some(i)
    ensures FijarCantidad(c, id, n) == c[i := c[i].(cantidad := n)]
  {
    assert forall k :: 0 <= k < |c| && k != i ==> c[k].idProducto != id;
  }

  /** Mapping over a product that is not in the cart changes nothing. */
  lemma FijarCantidadAusente(c: seq<Item>, id: int, n: int)
    requires Buscar(c, id).None?
    ensures FijarCantidad(c, id, n) == c
  {
  }

  /** Removing a product that is not in the cart changes nothing. */
  lemma QuitarAusente(c: seq<Item>, id: int)
    requires Buscar(c, id).None?
    ensures Quitar(c, id) == c
  {
    var p := DeOtroProducto(id);
    forall x | x in c ensures p(x) { }
    FiltrarTodo(c, p);
  }

  /** On a cart with unique ids, removing a product drops exactly its line. */
  lemma QuitarPresente(c: seq<Item>, id: int, i: nat)
    requires IdsUnicos(c) && Buscar(c, id) == Some(i)
    ensures Quitar(c, id) == c[..i] + c[i + 1..]
  {
    assert forall j :: 0 <= j < |c| && j != i ==> c[j].idProducto != id;
    FiltrarUnico(c, DeOtroProducto(id), i);
  }

  /** The payload has one detail per cart line, each with the line's product,
      quantity, unit price and `precio * cantidad` as subtotal, and its total
      is the sum of the subtotals. */
  lemma VentaCuadra(c: seq<Item>, cliente: Option<int>, metodoPago: string, fecha: string)
    ensures var v := ConstruirVenta(c, cliente, metodoPago, fecha);
      && |v.detalles| == |c|
      && (forall i :: 0 <= i < |c| ==>
            && v.detalles[i].idProducto == c[i].idProducto
            && v.detalles[i].cantidad == c[i].cantidad
            && v.detalles[i].precioUnitario == c[i].precio
            && v.detalles[i].subtotal == c[i].precio * c[i].cantidad)
      && v.total == Suma(Subtotales(v.detalles))
      && v.metodoPago == metodoPago && v.fecha == fecha
  {
    assert Subtotales(Detalles(c)) == ImportesPor(c, Importe);
  }

  /** Appending the line of a product not yet in the cart keeps ids unique. */
  lemma AgregarNuevoUnico(c: seq<Item>, it: Item)
    requires IdsUnicos(c) && Buscar(c, it.idProducto).None?
    ensures IdsUnicos(c + [it])
  {
  }

  /** Changing a quantity in place keeps the ids unique. */
  lemma ReemplazarUnico(c: seq<Item>, i: nat, it: Item)
    requires IdsUnicos(c) && i < |c| && it.idProducto == c[i].idProducto
    ensures IdsUnicos(c[i := it])
  {
  }

  /** Removing a line keeps the ids unique. */
  lemma QuitarLineaUnico(c: seq<Item>, i: nat)
    requires IdsUnicos(c) && i < |c|
    ensures IdsUnicos(c[..i] + c[i + 1..])
  {
    var r := c[..i] + c[i + 1..];
    forall a, b | 0 <= a < b < |r| ensures r[a].idProducto != r[b].idProducto {
      var a' := if a < i then a else a + 1;
      var b' := if b < i then b else b + 1;
      assert r[a] == c[a'] && r[b] == c[b'];
    }
  }
}
