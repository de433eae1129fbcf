/** The `Ticket` class of `ticket/ticket.py`: a sale ticket that sums the
    products it is given and, when generated, stores that total with the
    current date. Amounts are cents. */
module Tickets {
  import opened Comun

  /** One entry of the ticket's `productos` list. */
  datatype ProductoTicket = ProductoTicket(id: int, precio: int, cantidad: int)

  /** `precio * cantidad` of one product. */
  function ImporteTicket(p: ProductoTicket): int
  {
    p.precio * p.cantidad
  }

  /** The total of a product list. */
  function TotalDe(ps: seq<ProductoTicket>): int
  {
    TotalPor(ps, ImporteTicket)
  }

  /** The name `generar_ticket` reads without importing it. */
  const DATETIME_NO_DEFINIDO := "name 'datetime' is not defined"

  class Ticket {
    const usuarioId: int
    const clienteId: int
    const productos: seq<ProductoTicket>
    var total: int
    /** `None` until a ticket is generated; the date as the clock gave it. */
    var fecha: Option<string>

    /** `__init__`: no total and no date yet. */
    constructor (usuarioId: int, clienteId: int, productos: seq<ProductoTicket>)
      ensures this.usuarioId == usuarioId && this.clienteId == clienteId && this.productos == productos
      ensures total == 0 && fecha == None
    {
      this.usuarioId := usuarioId;
      this.clienteId := clienteId;
      this.productos := productos;
      total := 0;
      fecha := None;
    }

    /** `calcular_total`: the accumulation over the products, in order. */
    method CalcularTotal() returns (suma: int)
      ensures suma == TotalDe(productos)
    {
      suma := 0;
      var i := 0;
      while i < |productos|
        invariant 0 <= i <= |productos|
        invariant suma == TotalDe(productos[..i])
      {
        assert productos[..i + 1] == productos[..i] + [productos[i]];
        TotalPorAgregar(productos[..i], productos[i], ImporteTicket);
        suma := suma + productos[i].precio * productos[i].cantidad;
        i := i + 1;
      }
      assert productos[..i] == productos;
    }

    /** `generar_ticket` as written: the total is assigned, and then reading
        `datetime` raises a `NameError`, so nothing is stored and the date
        stays unset. */
    method GenerarTicket() returns (r: Result<bool>)
      modifies this
      ensures total == TotalDe(productos) && fecha == old(fecha)
      ensures r == Err(DATETIME_NO_DEFINIDO)
    {
      total := CalcularTotal();
      r := Err(DATETIME_NO_DEFINIDO);
    }

    /** `generar_ticket` with the clock within reach: the total is assigned
        and the date taken before anything is stored, and the answer is
        whether the database accepted the rows (`guardado`, the outcome of the
        connection and the inserts, which this model does not perform). As
        written even a failed insert would not give `False`: the `except`
        clause names `mysql`, which the file never imports, and raises
        `NameError` when it is evaluated. */
    method GenerarTicketCorregido(ahora: string, guardado: bool) returns (r: Result<bool>)
      modifies this
      ensures total == TotalDe(productos) && fecha == Some(ahora)
      ensures r == Ok(guardado)
    {
      total := CalcularTotal();
      fecha := Some(ahora);
      r := Ok(guardado);
    }
  }
}
