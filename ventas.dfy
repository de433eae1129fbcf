/** Sales on the server: the models of `backend/apps/ventas/models.py`, the
    nested create of `backend/apps/ventas/serializers.py`, the stock signals of
    `backend/apps/ventas/signals.py`, and the `create` and `cancelar` actions of
    `VentaViewSet` in `backend/apps/ventas/views.py`. The database is the class
    `Tienda`: the sale and detail tables beside the inventory tables of
    `InventarioModelos.Inventario`. Amounts are cents. */
module Ventas {
  import opened Comun
  import opened InventarioModelos

  datatype MetodoPago = Efectivo | Tarjeta | Transferencia

  datatype EstadoVenta = Pendiente | Completada | Cancelada

  /** `estado` as stored: what the request gave, `pendiente` otherwise. */
  function EstadoInicial(e: Option<EstadoVenta>): (r: EstadoVenta)
    ensures e.None? ==> r == Pendiente
    ensures e.Some? ==> r == e.value
  {
    if e.Some? then e.value else Pendiente
  }

  datatype Venta = Venta(idVenta: int, idUsuario: int, idCliente: Option<int>, total: int,
                         metodoPago: MetodoPago, estado: EstadoVenta,
                         motivoCancelacion: Option<string>, canceladoPor: Option<int>)

  datatype Detalle = Detalle(idDetalle: int, idVenta: int, idProducto: int, cantidad: int,
                             precioUnitario: int, subtotal: int)

  /** A detail as submitted: `subtotal` is read-only and never taken from it. */
  datatype DatosDetalle = DatosDetalle(idProducto: int, cantidad: int, precioUnitario: int)

  /** A sale as submitted; `id_venta`, `fecha` and `total` are read-only. */
  datatype DatosVenta = DatosVenta(idCliente: Option<int>, metodoPago: MetodoPago,
                                   estado: Option<EstadoVenta>, detalles: seq<DatosDetalle>)

  /** `DetalleVenta.save`: the subtotal is always recomputed. */
  function Subtotal(cantidad: int, precioUnitario: int): int
  {
    cantidad * precioUnitario
  }

  /** A stored detail carries the subtotal `save` gave it. */
  ghost predicate Guardado(d: Detalle)
  {
    d.subtotal == Subtotal(d.cantidad, d.precioUnitario)
  }

  function Subtotales(ds: seq<Detalle>): (r: seq<int>)
    ensures |r| == |ds| && forall i :: 0 <= i < |ds| ==> r[i] == ds[i].subtotal
  {
    seq(|ds|, i requires 0 <= i < |ds| => ds[i].subtotal)
  }

  /** `cantidad * precio_unitario` per detail, the aggregate of `actualizar_total`. */
  function Importes(ds: seq<Detalle>): (r: seq<int>)
    ensures |r| == |ds| && forall i :: 0 <= i < |ds| ==> r[i] == ds[i].cantidad * ds[i].precioUnitario
  {
    seq(|ds|, i requires 0 <= i < |ds| => ds[i].cantidad * ds[i].precioUnitario)
  }

  function DeVenta(idVenta: int): Detalle -> bool
  {
    (d: Detalle) => d.idVenta == idVenta
  }

  /** `Venta.actualizar_total`: the aggregate over the sale's details, `or 0`
      making a sale without details total 0. */
  function TotalDe(ds: seq<Detalle>, idVenta: int): (r: int)
    ensures (forall i :: 0 <= i < |ds| ==> ds[i].idVenta != idVenta) ==> r == 0
  {
    var propios := Filtrar(ds, DeVenta(idVenta));
    if propios == [] then 0
    else
      FiltrarMiembros(ds, DeVenta(idVenta));
      assert propios[0] in propios;
      Suma(Importes(propios))
  }

  /** On saved details the serializer's sum of subtotals is the total
      `actualizar_total` computes. */
  lemma {:induction false} SubtotalesSonImportes(ds: seq<Detalle>, idVenta: int)
    requires forall i :: 0 <= i < |ds| ==> Guardado(ds[i])
    ensures Suma(Subtotales(Filtrar(ds, DeVenta(idVenta)))) == TotalDe(ds, idVenta)
  {
    var propios := Filtrar(ds, DeVenta(idVenta));
    assert Subtotales(propios) == Importes(propios) by {
      FiltrarMiembros(ds, DeVenta(idVenta));
      forall i | 0 <= i < |propios| ensures Subtotales(propios)[i] == Importes(propios)[i] {
        assert propios[i] in propios;
        assert propios[i] in ds;
      }
    }
  }

  /** A submitted detail as `DetalleVenta.save` stores it under key `id`. */
  function NuevoDetalle(id: int, idVenta: int, d: DatosDetalle): (r: Detalle)
    ensures Guardado(r) && r.idDetalle == id && r.idVenta == idVenta
    ensures r.idProducto == d.idProducto && r.cantidad == d.cantidad && r.precioUnitario == d.precioUnitario
  {
    Detalle(id, idVenta, d.idProducto, d.cantidad, d.precioUnitario, Subtotal(d.cantidad, d.precioUnitario))
  }

  /** The details the serializer creates, with consecutive keys from `base`. */
  function Nuevos(base: int, idVenta: int, ds: seq<DatosDetalle>): (r: seq<Detalle>)
    ensures |r| == |ds|
    ensures forall i :: 0 <= i < |ds| ==> r[i] == NuevoDetalle(base + i, idVenta, ds[i])
  {
    seq(|ds|, i requires 0 <= i < |ds| => NuevoDetalle(base + i, idVenta, ds[i]))
  }

  /** The amounts of the submitted details. */
  function ImportesDatos(ds: seq<DatosDetalle>): (r: seq<int>)
    ensures |r| == |ds| && forall i :: 0 <= i < |ds| ==> r[i] == ds[i].cantidad * ds[i].precioUnitario
  {
    seq(|ds|, i requires 0 <= i < |ds| => ds[i].cantidad * ds[i].precioUnitario)
  }

  /** What each detail asks of the stock. */
  function Lineas(ds: seq<DatosDetalle>): (r: seq<Linea>)
    ensures |r| == |ds| && forall i :: 0 <= i < |ds| ==> r[i] == Linea(ds[i].idProducto, ds[i].cantidad)
  {
    seq(|ds|, i requires 0 <= i < |ds| => Linea(ds[i].idProducto, ds[i].cantidad))
  }

  function LineasDe(ds: seq<Detalle>): (r: seq<Linea>)
    ensures |r| == |ds| && forall i :: 0 <= i < |ds| ==> r[i] == Linea(ds[i].idProducto, ds[i].cantidad)
  {
    seq(|ds|, i requires 0 <= i < |ds| => Linea(ds[i].idProducto, ds[i].cantidad))
  }

  /** The stock lines of the created details are the submitted ones. */
  lemma LineasDeNuevos(base: int, idVenta: int, ds: seq<DatosDetalle>)
    ensures LineasDe(Nuevos(base, idVenta, ds)) == Lineas(ds)
  {
  }

  // ---------------------------------------------------------------------------
  // The stock pre-check of the view

  /** Whether line `i` is the first one for its product: the one `next(...)` picks. */
  predicate Primera(ls: seq<Linea>, i: int)
    requires 0 <= i < |ls|
  {
    forall j :: 0 <= j < i ==> ls[j].idProducto != ls[i].idProducto
  }

  /** `_validar_stock_disponible` passes: every requested product found in the
      table has at least the quantity of its first line. Unknown ids are not
      checked. */
  predicate StockDisponible(ps: map<int, Producto>, ls: seq<Linea>)
  {
    forall i :: 0 <= i < |ls| && Primera(ls, i) && ls[i].idProducto in ps ==>
      ps[ls[i].idProducto].stock >= ls[i].cantidad
  }

  const STOCK_INSUFICIENTE := "Stock insuficiente para "

  ghost predicate Distintos(ls: seq<Linea>)
  {
    forall i, j :: 0 <= i < j < |ls| ==> ls[i].idProducto != ls[j].idProducto
  }

  lemma {:induction false} CantidadAusente(ls: seq<Linea>, id: int)
    requires forall i :: 0 <= i < |ls| ==> ls[i].idProducto != id
    ensures CantidadDe(ls, id) == 0
  {
    if ls != [] {
      CantidadAusente(ls[..|ls| - 1], id);
    }
  }

  /** With one line per product, passing the pre-check means no detail is then
      refused by the per-detail check. */
  lemma {:induction false} PrecheckSuficiente(ps: map<int, Producto>, ls: seq<Linea>)
    requires Existen(ps, ls) && Distintos(ls) && StockDisponible(ps, ls)
    ensures Aplicar(ps, SALIDA, ls).0 == |ls|
  {
    if ls != [] {
      var init, l := ls[..|ls| - 1], ls[|ls| - 1];
      assert ls == init + [l];
      AplicarAgregar(ps, SALIDA, init, l);
      assert StockDisponible(ps, init) by {
        forall i | 0 <= i < |init| && Primera(init, i) && init[i].idProducto in ps
          ensures ps[init[i].idProducto].stock >= init[i].cantidad
        {
          assert init[i] == ls[i];
          assert Primera(ls, i);
        }
      }
      PrecheckSuficiente(ps, init);
      AplicarCompleto(ps, SALIDA, init);
      CantidadAusente(init, l.idProducto);
      assert Primera(ls, |ls| - 1);
    }
  }

  // ---------------------------------------------------------------------------
  // The details' own stock check and decrement

  /** The product instance a detail's signals read. The serializer fetched one
      instance per submitted detail when it validated the request, so without
      `refrescar` it is the row as it was then, whatever earlier details of the
      same sale wrote since; with `refrescar` it is the row as it is now. */
  function Instancia(p0: map<int, Producto>, q: map<int, Producto>, id: int, refrescar: bool): Producto
    requires id in p0 && id in q
  {
    if refrescar then q[id] else p0[id]
  }

  /** The details' run over the product table: line by line, `validar_stock`
      refuses the line when its instance shows less stock than asked, and
      otherwise `actualizar_stock` saves that instance, less the quantity, over
      the row. A refused line, or a product not in the table, ends the run. */
  function Detallar(p0: map<int, Producto>, ls: seq<Linea>, refrescar: bool): (r: (nat, map<int, Producto>))
    ensures r.0 <= |ls| && r.1.Keys == p0.Keys
    decreases |ls|
  {
    if ls == [] then (0, p0)
    else
      var antes := Detallar(p0, ls[..|ls| - 1], refrescar);
      var l := ls[|ls| - 1];
      if antes.0 < |ls| - 1 || l.idProducto !in p0 then antes
      else
        var p := Instancia(p0, antes.1, l.idProducto, refrescar);
        if p.stock < l.cantidad then antes
        else (|ls|, antes.1[l.idProducto := p.(stock := p.stock - l.cantidad)])
  }

  lemma DetallarAgregar(p0: map<int, Producto>, ls: seq<Linea>, l: Linea, refrescar: bool)
    ensures var antes := Detallar(p0, ls, refrescar);
      Detallar(p0, ls + [l], refrescar) ==
        if antes.0 < |ls| || l.idProducto !in p0 then antes
        else
          var p := Instancia(p0, antes.1, l.idProducto, refrescar);
          if p.stock < l.cantidad then antes
          else (|ls| + 1, antes.1[l.idProducto := p.(stock := p.stock - l.cantidad)])
  {
    assert (ls + [l])[..|ls|] == ls;
  }

  /** Once the details' run has stopped, later lines change nothing. */
  lemma {:induction false} DetallarDetenido(p0: map<int, Producto>, ls: seq<Linea>, n: nat, refrescar: bool)
    requires n <= |ls|
    ensures Detallar(p0, ls[..n], refrescar).0 < n ==> Detallar(p0, ls, refrescar) == Detallar(p0, ls[..n], refrescar)
    decreases |ls| - n
  {
    if n < |ls| {
      DetallarDetenido(p0, ls, n + 1, refrescar);
      assert ls[..n + 1] == ls[..n] + [ls[n]];
      DetallarAgregar(p0, ls[..n], ls[n], refrescar);
    } else {
      assert ls[..n] == ls;
    }
  }

  /** The loop's step: a refused line `n` is where the whole run stops, and an
      accepted one extends it by its instance's write. */
  lemma DetallarSiguiente(p0: map<int, Producto>, ls: seq<Linea>, n: nat, q: map<int, Producto>, refrescar: bool)
    requires n < |ls| && Detallar(p0, ls[..n], refrescar) == (n, q) && ls[n].idProducto in p0
    ensures var p := Instancia(p0, q, ls[n].idProducto, refrescar);
      && (p.stock < ls[n].cantidad ==> Detallar(p0, ls, refrescar) == (n, q))
      && (p.stock >= ls[n].cantidad ==>
            Detallar(p0, ls[..n + 1], refrescar) == (n + 1, q[ls[n].idProducto := p.(stock := p.stock - ls[n].cantidad)]))
  {
    assert ls[..n + 1] == ls[..n] + [ls[n]];
    DetallarAgregar(p0, ls[..n], ls[n], refrescar);
    var p := Instancia(p0, q, ls[n].idProducto, refrescar);
    if p.stock < ls[n].cantidad {
      DetallarDetenido(p0, ls, n + 1, refrescar);
    }
  }

  /** With the row read afresh, the details' run is the run of exit movements. */
  lemma {:induction false} DetallarRefrescado(p0: map<int, Producto>, ls: seq<Linea>)
    ensures Detallar(p0, ls, true) == Aplicar(p0, SALIDA, ls)
  {
    if ls != [] {
      DetallarRefrescado(p0, ls[..|ls| - 1]);
    }
  }

  /** Exits on other products leave a row as it was. */
  lemma {:induction false} AplicarIntacto(ps: map<int, Producto>, tipo: string, ls: seq<Linea>, id: int)
    requires id in ps && forall i :: 0 <= i < |ls| ==> ls[i].idProducto != id
    ensures Aplicar(ps, tipo, ls).1[id] == ps[id]
  {
    if ls != [] {
      AplicarIntacto(ps, tipo, ls[..|ls| - 1], id);
    }
  }

  /** With one line per product no instance is stale: the details' run is the
      run of exit movements either way. */
  lemma {:induction false} DetallarDistintos(p0: map<int, Producto>, ls: seq<Linea>)
    requires Distintos(ls)
    ensures Detallar(p0, ls, false) == Aplicar(p0, SALIDA, ls)
  {
    if ls != [] {
      var init, l := ls[..|ls| - 1], ls[|ls| - 1];
      assert Distintos(init) by {
        forall i, j | 0 <= i < j < |init| ensures init[i].idProducto != init[j].idProducto {
          assert init[i] == ls[i] && init[j] == ls[j];
        }
      }
      DetallarDistintos(p0, init);
      if l.idProducto in p0 {
        forall i | 0 <= i < |init| ensures init[i].idProducto != l.idProducto {
          assert init[i] == ls[i];
        }
        AplicarIntacto(p0, SALIDA, init, l.idProducto);
      }
    }
  }

  /** Two lines for one product: the pre-check reads only the first, and each
      detail checks and writes its own instance, fetched before any detail was
      stored. Stock 3 and two lines of 2 pass the pre-check; both details are
      stored and each writes stock 1, so one decrement is lost; the exit
      movement that follows then finds 1 and is refused. With the row read
      afresh the second detail is refused instead. */
  lemma PrecheckDuplicado(p: Producto)
    requires p.stock == 3
    ensures var ps := map[p.idProducto := p];
            var ls := [Linea(p.idProducto, 2), Linea(p.idProducto, 2)];
            var detalles := Detallar(ps, ls, false);
      && StockDisponible(ps, ls)
      && detalles == (2, map[p.idProducto := p.(stock := 1)])
      && Aplicar(detalles.1, SALIDA, ls).0 == 0
      && Detallar(ps, ls, true).0 == 1
  {
    var ps := map[p.idProducto := p];
    var l := Linea(p.idProducto, 2);
    var ls := [l, l];
    var q := map[p.idProducto := p.(stock := 1)];
    assert Detallar(ps, [l], false) == (1, q) && Detallar(ps, [l], true) == (1, q) by {
      assert [l] == [] + [l];
      assert Detallar(ps, [], false) == (0, ps) && Detallar(ps, [], true) == (0, ps);
      DetallarAgregar(ps, [], l, false);
      DetallarAgregar(ps, [], l, true);
      assert ps[p.idProducto := p.(stock := 1)] == q;
    }
    assert ls == [l] + [l];
    assert Detallar(ps, ls, false) == (2, q) by {
      DetallarAgregar(ps, [l], l, false);
      assert q[p.idProducto := p.(stock := 1)] == q;
    }
    assert Detallar(ps, ls, true) == (1, q) by {
      DetallarAgregar(ps, [l], l, true);
    }
    assert Aplicar(q, SALIDA, ls).0 == 0 by {
      assert [l] == [] + [l];
      AplicarAgregar(q, SALIDA, [], l);
      AplicarAgregar(q, SALIDA, [l], l);
    }
    assert StockDisponible(ps, ls) by {
      assert !Primera(ls, 1);
    }
  }

  /** `str(n)`. */
  function Decimal(n: nat): (r: string)
    ensures r != []
  {
    if n < 10 then ["0123456789"[n]] else Decimal(n / 10) + ["0123456789"[n % 10]]
  }

  /** One more submitted detail appends one created detail with the next key. */
  lemma NuevosAgregar(anteriores: seq<Detalle>, base: int, idVenta: int, ds: seq<DatosDetalle>, i: nat)
    requires i < |ds|
    ensures anteriores + Nuevos(base, idVenta, ds[..i + 1])
         == (anteriores + Nuevos(base, idVenta, ds[..i])) + [NuevoDetalle(base + i, idVenta, ds[i])]
  {
    var a := Nuevos(base, idVenta, ds[..i + 1]);
    var b := Nuevos(base, idVenta, ds[..i]) + [NuevoDetalle(base + i, idVenta, ds[i])];
    forall k | 0 <= k <= i ensures a[k] == b[k] {
      if k < i {
        assert ds[..i + 1][k] == ds[..i][k];
      }
    }
    assert a == b;
  }

  /** A new sale's details are exactly the ones created for it, so its total is
      the sum of the submitted amounts. */
  lemma {:induction false} TotalNuevos(anteriores: seq<Detalle>, base: int, idVenta: int, ds: seq<DatosDetalle>)
    requires forall i :: 0 <= i < |anteriores| ==> anteriores[i].idVenta != idVenta
    ensures Filtrar(anteriores + Nuevos(base, idVenta, ds), DeVenta(idVenta)) == Nuevos(base, idVenta, ds)
    ensures Suma(Subtotales(Filtrar(anteriores + Nuevos(base, idVenta, ds), DeVenta(idVenta))))
         == Suma(ImportesDatos(ds))
  {
    var nuevos := Nuevos(base, idVenta, ds);
    FiltrarConcatenar(anteriores, nuevos, DeVenta(idVenta));
    FiltrarNinguno(anteriores, DeVenta(idVenta));
    FiltrarCadaUno(nuevos, DeVenta(idVenta));
    assert [] + nuevos == nuevos;
    assert Subtotales(nuevos) == ImportesDatos(ds);
  }

  /** The sale and detail tables agree with their keys, every detail was saved
      through `DetalleVenta.save`, and every foreign key resolves. */
  ghost predicate Tablas(ventas: map<int, Venta>, detalles: seq<Detalle>, siguienteVenta: nat,
                         siguienteDetalle: nat, productos: map<int, Producto>)
  {
    && siguienteVenta > 0
    && (forall k :: k in ventas ==> ventas[k].idVenta == k && 0 < k < siguienteVenta)
    && (forall i :: 0 <= i < |detalles| ==>
          Guardado(detalles[i]) && detalles[i].idProducto in productos
          && detalles[i].idVenta in ventas && detalles[i].idDetalle < siguienteDetalle)
  }

  /** The stock lines of a sale's stored details name stored products. */
  lemma ExistenDetalles(ps: map<int, Producto>, ds: seq<Detalle>, idVenta: int)
    requires forall i :: 0 <= i < |ds| ==> ds[i].idProducto in ps
    ensures Existen(ps, LineasDe(Filtrar(ds, DeVenta(idVenta))))
  {
    var propios := Filtrar(ds, DeVenta(idVenta));
    FiltrarMiembros(ds, DeVenta(idVenta));
    forall i | 0 <= i < |propios| ensures LineasDe(propios)[i].idProducto in ps {
      assert propios[i] in ds;
    }
  }

  /** Line `i` is the first for a stored product whose stock is below its
      quantity: the pre-check raises for that product. */
  predicate Falta(ps: map<int, Producto>, ls: seq<Linea>, i: int)
  {
    0 <= i < |ls| && Primera(ls, i) && ls[i].idProducto in ps && ps[ls[i].idProducto].stock < ls[i].cantidad
  }

  /** The quote Python's `repr` puts around a string: a double quote when it
      holds a single quote and no double quote, a single quote otherwise. */
  function Comilla(s: string): (q: char)
    ensures q == '"' <==> '\'' in s && '"' !in s
    ensures q == '\'' || q == '"'
  {
    if '\'' in s && '"' !in s then '"' else '\''
  }

  /** The Latin-1 characters `repr` does not print as they are: the control
      characters, the no-break space and the soft hyphen. */
  predicate NoImprimible(c: char)
  {
    c < ' ' || ('\U{7F}' <= c <= '\U{A0}') || c == '\U{AD}'
  }

  function Hexadecimal(n: nat): char
    requires n < 16
  {
    "0123456789abcdef"[n]
  }

  function ValorHexadecimal(c: char): Option<nat>
  {
    if '0' <= c <= '9' then Some(c as int - '0' as int)
    else if 'a' <= c <= 'f' then Some(c as int - 'a' as int + 10)
    else None
  }

  lemma HexadecimalIda(n: nat)
    requires n < 16
    ensures ValorHexadecimal(Hexadecimal(n)) == Some(n)
  {
  }

  /** `repr`'s spelling of one character inside quotes `q`: the quote and the
      backslash get a backslash, tab, newline and carriage return their
      letters, the other unprintable ones `\x` and two hexadecimal digits. */
  function Escapar(c: char, q: char): (r: string)
    ensures r == [c] <==> c != q && c != '\\' && !NoImprimible(c)
  {
    if c == q || c == '\\' then ['\\', c]
    else if c == '\t' then "\\t"
    else if c == '\n' then "\\n"
    else if c == '\r' then "\\r"
    else if NoImprimible(c) then ['\\', 'x', Hexadecimal(c as int / 16), Hexadecimal(c as int % 16)]
    else [c]
  }

  function Aplanar(xs: seq<string>): string
  {
    if xs == [] then [] else xs[0] + Aplanar(xs[1..])
  }

  /** `repr`'s spelling of a whole string inside quotes `q`, character by
      character. */
  function EscaparTodo(s: string, q: char): string
  {
    Aplanar(seq(|s|, i requires 0 <= i < |s| => Escapar(s[i], q)))
  }

  lemma EscaparTodoPrimero(s: string, q: char)
    ensures s == [] ==> EscaparTodo(s, q) == []
    ensures s != [] ==> EscaparTodo(s, q) == Escapar(s[0], q) + EscaparTodo(s[1..], q)
  {
    var xs := seq(|s|, i requires 0 <= i < |s| => Escapar(s[i], q));
    if s != [] {
      assert xs[1..] == seq(|s| - 1, i requires 0 <= i < |s| - 1 => Escapar(s[1..][i], q));
    }
  }

  lemma {:induction false} EscaparTodoLongitud(s: string, q: char)
    ensures |EscaparTodo(s, q)| >= |s|
  {
    EscaparTodoPrimero(s, q);
    if s != [] {
      EscaparTodoLongitud(s[1..], q);
    }
  }

  function Anteponer(c: char, r: Option<string>): Option<string>
  {
    if r.Some? then Some([c] + r.value) else None
  }

  /** Reads back the inside of a quoted `repr`: `None` for a bare quote, a
      lone backslash or an escape `repr` does not write. */
  function Desescapar(t: string, q: char): (r: Option<string>)
  {
    if t == [] then Some([])
    else if t[0] == q then None
    else if t[0] != '\\' then Anteponer(t[0], Desescapar(t[1..], q))
    else if |t| < 2 then None
    else if t[1] == q || t[1] == '\\' then Anteponer(t[1], Desescapar(t[2..], q))
    else if t[1] == 't' then Anteponer('\t', Desescapar(t[2..], q))
    else if t[1] == 'n' then Anteponer('\n', Desescapar(t[2..], q))
    else if t[1] == 'r' then Anteponer('\r', Desescapar(t[2..], q))
    else if t[1] == 'x' && |t| >= 4 && ValorHexadecimal(t[2]).Some? && ValorHexadecimal(t[3]).Some? then
      Anteponer((16 * ValorHexadecimal(t[2]).value + ValorHexadecimal(t[3]).value) as char, Desescapar(t[4..], q))
    else None
  }

  /** Reading back what `Escapar` wrote gives the character again. */
  lemma DesescaparEscapar(c: char, q: char, resto: string)
    requires q == '\'' || q == '"'
    ensures Desescapar(Escapar(c, q) + resto, q) == Anteponer(c, Desescapar(resto, q))
  {
    var t := Escapar(c, q) + resto;
    if c != q && c != '\\' && c != '\t' && c != '\n' && c != '\r' && NoImprimible(c) {
      var a, b := c as int / 16, c as int % 16;
      HexadecimalIda(a);
      HexadecimalIda(b);
      assert t[2..] == [Hexadecimal(a), Hexadecimal(b)] + resto;
      assert t[4..] == resto;
      assert (16 * a + b) as char == c;
    } else if c == q || c == '\\' || c == '\t' || c == '\n' || c == '\r' {
      assert t[2..] == resto;
    } else {
      assert t[1..] == resto;
    }
  }

  lemma {:induction false} DesescaparEscaparTodo(s: string, q: char)
    requires q == '\'' || q == '"'
    ensures Desescapar(EscaparTodo(s, q), q) == Some(s)
  {
    EscaparTodoPrimero(s, q);
    if s != [] {
      DesescaparEscaparTodo(s[1..], q);
      DesescaparEscapar(s[0], q, EscaparTodo(s[1..], q));
      assert [s[0]] + s[1..] == s;
    }
  }

  /** `str` of a Django `ValidationError` raised with one message: the
      `repr` of the one-element list of messages. */
  function Texto(msg: string): (r: string)
    ensures |r| >= |msg| + 4 && r[0] == '[' && r[|r| - 1] == ']'
    ensures r[1] == Comilla(msg) && r[|r| - 2] == r[1]
  {
    var q := Comilla(msg);
    EscaparTodoLongitud(msg, q);
    "[" + [q] + EscaparTodo(msg, q) + [q] + "]"
  }

  /** Reads the message back out of an error text. */
  function LeerTexto(r: string): Option<string>
  {
    if |r| >= 4 && r[0] == '[' && r[|r| - 1] == ']' && (r[1] == '\'' || r[1] == '"') && r[|r| - 2] == r[1]
    then Desescapar(r[2..|r| - 2], r[1])
    else None
  }

  /** Every error text reads back as its message, so two messages never give
      the same text. */
  lemma TextoIda(msg: string)
    ensures LeerTexto(Texto(msg)) == Some(msg)
  {
    var q := Comilla(msg);
    var r := Texto(msg);
    assert r[2..|r| - 2] == EscaparTodo(msg, q);
    DesescaparEscaparTodo(msg, q);
  }

  lemma {:induction false} EscaparTodoSimple(s: string, q: char)
    requires forall i :: 0 <= i < |s| ==> s[i] != q && s[i] != '\\' && !NoImprimible(s[i])
    ensures EscaparTodo(s, q) == s
  {
    EscaparTodoPrimero(s, q);
    if s != [] {
      EscaparTodoSimple(s[1..], q);
      assert [s[0]] + s[1..] == s;
    }
  }

  /** A message with no quote, backslash or unprintable character is put
      between `['` and `']` as it is. */
  lemma TextoSimple(msg: string)
    requires forall i :: 0 <= i < |msg| ==> msg[i] != '\'' && msg[i] != '\\' && !NoImprimible(msg[i])
    ensures Texto(msg) == "['" + msg + "']"
  {
    assert '\'' !in msg;
    EscaparTodoSimple(msg, '\'');
  }

  /** What an action of `VentaViewSet` answers: 201 with the new sale, 200
      with a status text, 400 with an error text (`None` when it is the
      serializer's own), or 404. */
  datatype Respuesta = Creada(idVenta: int) | Hecho(estado: string) | Rechazada(error: Option<string>) | NoEncontrada

  /** The tables after `perform_create` stored the sale under key `id` with
      the sum of the submitted amounts as total, and one detail per submitted
      detail. */
  ghost predicate VentaGuardada(ventas0: map<int, Venta>, detalles0: seq<Detalle>, id: int, base: int,
                                idUsuario: int, datos: DatosVenta,
                                ventas: map<int, Venta>, detalles: seq<Detalle>, siguienteVenta: int, siguienteDetalle: int)
  {
    && ventas == ventas0[id := Venta(id, idUsuario, datos.idCliente, Suma(ImportesDatos(datos.detalles)),
                                     datos.metodoPago, EstadoInicial(datos.estado), None, None)]
    && detalles == detalles0 + Nuevos(base, id, datos.detalles)
    && siguienteVenta == id + 1 && siguienteDetalle == base + |datos.detalles|
  }

  /** As written, creating a sale takes each quantity off twice (the detail's
      `post_save`, through its instance, and the exit movement) and cancelling gives it back once:
      stock 10 and a detail of 3 leave 4 after the sale and 7 after its
      cancellation. */
  lemma DobleDescuento(p: Producto)
    requires p.stock == 10
    ensures var ps := map[p.idProducto := p];
            var ls := [Linea(p.idProducto, 3)];
            var detalles := Detallar(ps, ls, false);
            var movimientos := Aplicar(detalles.1, SALIDA, ls);
            var reversion := Aplicar(movimientos.1, ENTRADA, ls);
      && detalles.0 == 1 && movimientos.0 == 1 && reversion.0 == 1
      && movimientos.1[p.idProducto].stock == 4 && reversion.1[p.idProducto].stock == 7
  {
    var ps := map[p.idProducto := p];
    var l := Linea(p.idProducto, 3);
    DetallarDistintos(ps, [l]);
    assert [l] == [] + [l];
    AplicarAgregar(ps, SALIDA, [], l);
    var q := Aplicar(ps, SALIDA, [l]).1;
    AplicarAgregar(q, SALIDA, [], l);
    var r := Aplicar(q, SALIDA, [l]).1;
    AplicarAgregar(r, ENTRADA, [], l);
  }

  /** As written, a sale whose quantity is more than half the stock is stored,
      with its details and the first decrement, and then answered with a 400:
      stock 5 and a detail of 3 pass every check up to the exit movement, which
      finds 2 left. */
  lemma GuardadaPeroRechazada(p: Producto)
    requires p.stock == 5
    ensures var ps := map[p.idProducto := p];
            var ls := [Linea(p.idProducto, 3)];
            var detalles := Detallar(ps, ls, false);
      && StockDisponible(ps, ls) && detalles.0 == 1 && detalles.1[p.idProducto].stock == 2
      && Aplicar(detalles.1, SALIDA, ls) == (0, detalles.1)
  {
    var ps := map[p.idProducto := p];
    var l := Linea(p.idProducto, 3);
    DetallarDistintos(ps, [l]);
    assert [l] == [] + [l];
    AplicarAgregar(ps, SALIDA, [], l);
    var q := Aplicar(ps, SALIDA, [l]).1;
    AplicarAgregar(q, SALIDA, [], l);
  }

  /** With the stock taken once per detail, cancelling a sale right after
      creating it gives the product table back exactly: the cancelled sale's
      details are the submitted ones, and entries of their quantities undo the
      exits (for non-negative quantities, which the serializer does not
      enforce). */
  lemma CancelacionRestaura(ps: map<int, Producto>, anteriores: seq<Detalle>, base: int, idVenta: int,
                            ds: seq<DatosDetalle>)
    requires forall i :: 0 <= i < |anteriores| ==> anteriores[i].idVenta != idVenta
    requires Existen(ps, Lineas(ds)) && Aplicar(ps, SALIDA, Lineas(ds)).0 == |ds|
    requires forall i :: 0 <= i < |ds| ==> ds[i].cantidad >= 0
    ensures var q := Aplicar(ps, SALIDA, Lineas(ds)).1;
            var ls := LineasDe(Filtrar(anteriores + Nuevos(base, idVenta, ds), DeVenta(idVenta)));
      ls == Lineas(ds) && Existen(q, ls) && Aplicar(q, ENTRADA, ls) == (|ds|, ps)
  {
    TotalNuevos(anteriores, base, idVenta, ds);
    LineasDeNuevos(base, idVenta, ds);
    EntradasRestauran(ps, Lineas(ds));
  }

  const CANCELADA_CON_EXITO := "Venta cancelada exitosamente"
  const REVERSION := "Reversión por cancelación de Venta #"

  const STOCK_INSUFICIENTE_PRODUCTO := "Stock insuficiente para el producto "
  const SOLO_COMPLETADAS := "Solo se pueden cancelar ventas completadas"

  class Tienda {
    const inv: Inventario
    var ventas: map<int, Venta>
    /** The `Detalle_Venta` table, in key order. */
    var detalles: seq<Detalle>
    var siguienteVenta: nat
    var siguienteDetalle: nat

    ghost predicate Valid()
      reads this, inv
    {
      inv.Valid() && Tablas(ventas, detalles, siguienteVenta, siguienteDetalle, inv.productos)
    }

    /** Every table of the store, for comparing two states. */
    ghost function Estado(): (map<int, Venta>, seq<Detalle>, nat, nat, map<int, Producto>, map<int, Movimiento>, nat)
      reads this, inv
    {
      (ventas, detalles, siguienteVenta, siguienteDetalle, inv.productos, inv.movimientos, inv.siguienteMovimiento)
    }

    constructor (inventario: Inventario)
      requires inventario.Valid()
      ensures Valid()
      ensures inv == inventario && ventas == map[] && detalles == []
      ensures siguienteVenta == 1 && siguienteDetalle == 1
    {
      inv := inventario;
      ventas := map[];
      detalles := [];
      siguienteVenta := 1;
      siguienteDetalle := 1;
    }

    /** `DetalleVenta.objects.create` for a detail carrying the product
        instance `p`: `validar_stock` refuses the detail when `p` shows less
        stock than asked; `save` sets the subtotal; and `actualizar_stock` then
        saves `p`, less the quantity, over the product's row. */
    method CrearDetalle(idVenta: int, d: DatosDetalle, p: Producto) returns (r: Result<int>)
      requires Valid() && idVenta in ventas && d.idProducto in inv.productos && p.idProducto == d.idProducto
      modifies this, inv
      ensures Valid()
      ensures
        && (r.Err? <==> p.stock < d.cantidad)
        && (r.Err? ==>
              && r.msg == STOCK_INSUFICIENTE_PRODUCTO + p.nombre && detalles == old(detalles)
              && inv.productos == old(inv.productos) && siguienteDetalle == old(siguienteDetalle))
        && (r.Ok? ==>
              && r.value == old(siguienteDetalle)
              && detalles == old(detalles) + [NuevoDetalle(old(siguienteDetalle), idVenta, d)]
              && inv.productos == old(inv.productos)[d.idProducto := p.(stock := p.stock - d.cantidad)]
              && siguienteDetalle == old(siguienteDetalle) + 1)
      // on the current row, the check and the decrement are the step of an exit movement
      ensures p == old(inv.productos[d.idProducto]) ==>
        var paso := Paso(old(inv.productos), SALIDA, Linea(d.idProducto, d.cantidad));
        (paso.None? <==> r.Err?) && (paso.Some? ==> inv.productos == paso.value)
      ensures ventas == old(ventas) && siguienteVenta == old(siguienteVenta)
      ensures inv.movimientos == old(inv.movimientos) && inv.siguienteMovimiento == old(inv.siguienteMovimiento)
    {
      if p.stock < d.cantidad {
        return Err(STOCK_INSUFICIENTE_PRODUCTO + p.nombre);
      }
      var detalle := NuevoDetalle(siguienteDetalle, idVenta, d);
      detalles := detalles + [detalle];
      siguienteDetalle := siguienteDetalle + 1;
      inv.Guardar(p.(stock := p.stock - d.cantidad));
      r := Ok(detalle.idDetalle);
    }

    /** Saving an existing detail again: `validar_stock` and `actualizar_stock`
        skip it, and only the subtotal is recomputed. */
    method ActualizarDetalle(i: nat, cantidad: int, precioUnitario: int)
      requires Valid() && i < |detalles|
      modifies this
      ensures Valid()
      ensures detalles == old(detalles)[i := old(detalles[i]).(cantidad := cantidad, precioUnitario := precioUnitario,
                                                              subtotal := Subtotal(cantidad, precioUnitario))]
      ensures ventas == old(ventas) && siguienteDetalle == old(siguienteDetalle)
      ensures inv.productos == old(inv.productos)
    {
      detalles := detalles[i := detalles[i].(cantidad := cantidad, precioUnitario := precioUnitario,
                                             subtotal := Subtotal(cantidad, precioUnitario))];
    }

    /** `Venta.objects.create` without its signal: the sale gets the next key. */
    method GuardarVenta(v: Venta)
      requires Valid() && v.idVenta == siguienteVenta
      modifies this
      ensures Valid()
      ensures ventas == old(ventas)[v.idVenta := v] && siguienteVenta == old(siguienteVenta) + 1
      ensures detalles == old(detalles) && siguienteDetalle == old(siguienteDetalle)
    {
      ventas := ventas[v.idVenta := v];
      siguienteVenta := siguienteVenta + 1;
    }

    /** Saving a sale with a new total. */
    method FijarTotal(idVenta: int, total: int)
      requires Valid() && idVenta in ventas
      modifies this
      ensures Valid()
      ensures ventas == old(ventas)[idVenta := old(ventas[idVenta]).(total := total)]
      ensures detalles == old(detalles)
      ensures siguienteVenta == old(siguienteVenta) && siguienteDetalle == old(siguienteDetalle)
    {
      ventas := ventas[idVenta := ventas[idVenta].(total := total)];
    }

    /** `Venta.actualizar_total`. */
    method ActualizarTotal(idVenta: int)
      requires Valid() && idVenta in ventas
      modifies this
      ensures Valid()
      ensures ventas == old(ventas)[idVenta := old(ventas[idVenta]).(total := TotalDe(detalles, idVenta))]
      ensures detalles == old(detalles)
      ensures siguienteVenta == old(siguienteVenta) && siguienteDetalle == old(siguienteDetalle)
    {
      FijarTotal(idVenta, TotalDe(detalles, idVenta));
    }

    /** The loop of `VentaSerializer.create`: one `DetalleVenta.objects.create`
        per submitted detail, stopping at the first refused one. Each detail
        carries the instance the serializer validated it with, or, with
        `refrescar`, the row read again. */
    method CrearDetalles(idVenta: int, ds: seq<DatosDetalle>, refrescar: bool) returns (hechos: nat)
      requires Valid() && idVenta in ventas && Existen(inv.productos, Lineas(ds))
      modifies this, inv
      ensures Valid()
      ensures (hechos, inv.productos) == Detallar(old(inv.productos), Lineas(ds), refrescar)
      ensures detalles == old(detalles) + Nuevos(old(siguienteDetalle), idVenta, ds[..hechos])
      ensures siguienteDetalle == old(siguienteDetalle) + hechos
      ensures ventas == old(ventas) && siguienteVenta == old(siguienteVenta)
      ensures inv.movimientos == old(inv.movimientos) && inv.siguienteMovimiento == old(inv.siguienteMovimiento)
    {
      var ls := Lineas(ds);
      var p0 := inv.productos;
      ghost var d0, base := detalles, siguienteDetalle;
      hechos := 0;
      while hechos < |ds|
        invariant 0 <= hechos <= |ds| && Valid() && idVenta in ventas
        invariant ventas == old(ventas) && siguienteVenta == old(siguienteVenta)
        invariant Detallar(p0, ls[..hechos], refrescar) == (hechos, inv.productos)
        invariant detalles == d0 + Nuevos(base, idVenta, ds[..hechos]) && siguienteDetalle == base + hechos
        invariant inv.movimientos == old(inv.movimientos) && inv.siguienteMovimiento == old(inv.siguienteMovimiento)
      {
        var creado := CrearSiguiente(idVenta, ds, hechos, refrescar, p0, d0, base);
        if !creado {
          return;
        }
        hechos := hechos + 1;
      }
      assert ls[..hechos] == ls;
    }

    /** One pass of the serializer's loop: detail `n` is created from its
        instance, or refused, which ends the run. */
    method CrearSiguiente(idVenta: int, ds: seq<DatosDetalle>, n: nat, refrescar: bool,
                          p0: map<int, Producto>, ghost d0: seq<Detalle>, ghost base: int)
      returns (creado: bool)
      requires n < |ds| && Valid() && idVenta in ventas && Existen(p0, Lineas(ds))
      requires forall k :: k in p0 ==> p0[k].idProducto == k
      requires Detallar(p0, Lineas(ds)[..n], refrescar) == (n, inv.productos)
      requires detalles == d0 + Nuevos(base, idVenta, ds[..n]) && siguienteDetalle == base + n
      modifies this, inv
      ensures Valid() && ventas == old(ventas) && siguienteVenta == old(siguienteVenta)
      ensures inv.movimientos == old(inv.movimientos) && inv.siguienteMovimiento == old(inv.siguienteMovimiento)
      ensures creado ==>
        && Detallar(p0, Lineas(ds)[..n + 1], refrescar) == (n + 1, inv.productos)
        && detalles == d0 + Nuevos(base, idVenta, ds[..n + 1]) && siguienteDetalle == base + n + 1
      ensures !creado ==>
        && Detallar(p0, Lineas(ds), refrescar) == (n, inv.productos)
        && detalles == old(detalles) && siguienteDetalle == old(siguienteDetalle)
    {
      var ls, d := Lineas(ds), ds[n];
      assert ls[n] == Linea(d.idProducto, d.cantidad);
      var q := inv.productos;
      var p := Instancia(p0, q, d.idProducto, refrescar);
      DetallarSiguiente(p0, ls, n, q, refrescar);
      var rd := CrearDetalle(idVenta, d, p);
      creado := rd.Ok?;
      if creado {
        NuevosAgregar(d0, base, idVenta, ds, n);
      }
    }

    /** The end of `VentaSerializer.create` once every detail is stored: the
        total is set to the sum of the sale's subtotals and saved, and the
        `post_save` recomputation finds the same sum. */
    method Totalizar(idVenta: int, ghost anteriores: seq<Detalle>, ghost base: int, ghost ds: seq<DatosDetalle>)
      requires Valid() && idVenta in ventas
      requires detalles == anteriores + Nuevos(base, idVenta, ds)
      requires forall i :: 0 <= i < |anteriores| ==> anteriores[i].idVenta != idVenta
      modifies this
      ensures Valid()
      ensures ventas == old(ventas)[idVenta := old(ventas[idVenta]).(total := Suma(ImportesDatos(ds)))]
      ensures detalles == old(detalles)
      ensures siguienteVenta == old(siguienteVenta) && siguienteDetalle == old(siguienteDetalle)
    {
      TotalNuevos(anteriores, base, idVenta, ds);
      FijarTotal(idVenta, Suma(Subtotales(Filtrar(detalles, DeVenta(idVenta)))));
      SubtotalesSonImportes(detalles, idVenta);
      ActualizarTotal(idVenta);
    }

    /** `VentaSerializer.create`: the sale is stored (its `post_save` giving it
        total 0), one detail is created per submitted detail until one is
        refused, and the total is set to the sum of the subtotals (which the
        `post_save` recomputation leaves as it is). A refused detail leaves the
        sale and the details before it in place. `refrescar` is passed to
        `CrearDetalles`. */
    method Crear(idUsuario: int, datos: DatosVenta, refrescar: bool) returns (r: Result<int>)
      requires Valid() && Existen(inv.productos, Lineas(datos.detalles))
      modifies this, inv
      ensures Valid()
      ensures var id := old(siguienteVenta);
              var run := Detallar(old(inv.productos), Lineas(datos.detalles), refrescar);
        && siguienteVenta == id + 1
        && id in ventas && ventas == old(ventas)[id := ventas[id]]
        && inv.productos == run.1
        && detalles == old(detalles) + Nuevos(old(siguienteDetalle), id, datos.detalles[..run.0])
        && siguienteDetalle == old(siguienteDetalle) + run.0
        && (r.Ok? <==> run.0 == |datos.detalles|)
        && (r.Ok? ==>
              && r.value == id
              && ventas[id] == Venta(id, idUsuario, datos.idCliente, Suma(ImportesDatos(datos.detalles)),
                                     datos.metodoPago, EstadoInicial(datos.estado), None, None))
        && (r.Err? ==>
              && ventas[id] == Venta(id, idUsuario, datos.idCliente, 0, datos.metodoPago,
                                     EstadoInicial(datos.estado), None, None)
              && r.msg == STOCK_INSUFICIENTE_PRODUCTO + run.1[datos.detalles[run.0].idProducto].nombre)
      ensures inv.movimientos == old(inv.movimientos) && inv.siguienteMovimiento == old(inv.siguienteMovimiento)
    {
      var id := siguienteVenta;
      var ds := datos.detalles;
      GuardarVenta(Venta(id, idUsuario, datos.idCliente, 0, datos.metodoPago,
                         EstadoInicial(datos.estado), None, None));
      ActualizarTotal(id);
      var d0, base := detalles, siguienteDetalle;
      var hechos := CrearDetalles(id, ds, refrescar);
      if hechos < |ds| {
        return Err(STOCK_INSUFICIENTE_PRODUCTO + inv.productos[ds[hechos].idProducto].nombre);
      }
      assert ds[..hechos] == ds;
      Totalizar(id, d0, base, ds);
      r := Ok(id);
    }

    /** The rollback of `perform_create`'s atomic block to the savepoint taken
        on entry. */
    method Deshacer(v0: map<int, Venta>, d0: seq<Detalle>, sv0: nat, sd0: nat, ps0: map<int, Producto>)
      requires inv.Valid() && Tablas(v0, d0, sv0, sd0, ps0)
      requires ps0.Keys == inv.productos.Keys && forall k :: k in ps0 ==> ps0[k].idProducto == k
      modifies this, inv
      ensures Valid()
      ensures (ventas, detalles, siguienteVenta, siguienteDetalle, inv.productos) == (v0, d0, sv0, sd0, ps0)
      ensures inv.movimientos == old(inv.movimientos) && inv.siguienteMovimiento == old(inv.siguienteMovimiento)
    {
      ventas, detalles, siguienteVenta, siguienteDetalle := v0, d0, sv0, sd0;
      inv.Restaurar(ps0);
    }

    /** `_validar_stock_disponible`: each requested product found in the table
        is checked against the quantity of its first line. The products are
        taken here in line order; the source takes them in the order the
        database returns them, so when several fall short the message may name
        any of them. */
    method ValidarStockDisponible(ls: seq<Linea>) returns (r: Option<string>)
      ensures r.None? <==> StockDisponible(inv.productos, ls)
      ensures r.Some? ==> exists i :: Falta(inv.productos, ls, i)
                                      && r.value == STOCK_INSUFICIENTE + inv.productos[ls[i].idProducto].nombre
    {
      var i := 0;
      while i < |ls|
        invariant 0 <= i <= |ls|
        invariant forall j :: 0 <= j < i ==> !Falta(inv.productos, ls, j)
      {
        if Primera(ls, i) && ls[i].idProducto in inv.productos
           && inv.productos[ls[i].idProducto].stock < ls[i].cantidad {
          assert Falta(inv.productos, ls, i);
          return Some(STOCK_INSUFICIENTE + inv.productos[ls[i].idProducto].nombre);
        }
        i := i + 1;
      }
      forall j | 0 <= j < |ls| && Primera(ls, j) && ls[j].idProducto in inv.productos
        ensures inv.productos[ls[j].idProducto].stock >= ls[j].cantidad
      {
        assert !Falta(inv.productos, ls, j);
      }
      return None;
    }

    /** `VentaViewSet.create` up to the end of `perform_create`: the stock
        pre-check, the serializer's validation (an unknown product fails it),
        then `perform_create`, whose atomic block rolls a refused detail back.
        `refrescar` is passed to `Crear`. */
    method CrearVerificada(idUsuario: int, datos: DatosVenta, refrescar: bool) returns (resp: Respuesta)
      requires Valid()
      modifies this, inv
      ensures Valid()
      ensures inv.movimientos == old(inv.movimientos) && inv.siguienteMovimiento == old(inv.siguienteMovimiento)
      ensures var ls := Lineas(datos.detalles);
              var ps := old(inv.productos);
              var run := Detallar(ps, ls, refrescar);
        && (!StockDisponible(ps, ls) ==>
              && resp.Rechazada? && resp.error.Some?
              && exists i :: Falta(ps, ls, i) && resp.error.value == Texto(STOCK_INSUFICIENTE + ps[ls[i].idProducto].nombre))
        && (StockDisponible(ps, ls) && !Existen(ps, ls) ==> resp == Rechazada(None))
        && (StockDisponible(ps, ls) && Existen(ps, ls) && run.0 < |ls| ==>
              resp == Rechazada(Some(Texto(STOCK_INSUFICIENTE_PRODUCTO + run.1[ls[run.0].idProducto].nombre))))
        && (resp.Creada? <==> StockDisponible(ps, ls) && Existen(ps, ls) && run.0 == |ls|)
        && (resp.Rechazada? ==> Estado() == old(Estado()))
        && (resp.Creada? ==>
              && resp.idVenta == old(siguienteVenta)
              && VentaGuardada(old(ventas), old(detalles), old(siguienteVenta), old(siguienteDetalle), idUsuario, datos,
                               ventas, detalles, siguienteVenta, siguienteDetalle)
              && inv.productos == run.1)
    {
      var ls := Lineas(datos.detalles);
      var falta := ValidarStockDisponible(ls);
      if falta.Some? {
        return Rechazada(Some(Texto(falta.value)));
      }
      if !Existen(inv.productos, ls) {
        return Rechazada(None);
      }
      var v0, d0, sv0, sd0, ps0 := ventas, detalles, siguienteVenta, siguienteDetalle, inv.productos;
      var r := Crear(idUsuario, datos, refrescar);
      if r.Err? {
        Deshacer(v0, d0, sv0, sd0, ps0);
        return Rechazada(Some(Texto(r.msg)));
      }
      resp := Creada(r.value);
    }

    /** `VentaViewSet.create` corrected: no `_procesar_movimientos_inventario`,
        and each detail reads its product's row afresh. Each detail's quantity
        then leaves the stock once, and the details are checked against the
        stock the earlier ones left. */
    method AccionCrearCorregida(idUsuario: int, datos: DatosVenta) returns (resp: Respuesta)
      requires Valid()
      modifies this, inv
      ensures Valid()
      ensures inv.movimientos == old(inv.movimientos) && inv.siguienteMovimiento == old(inv.siguienteMovimiento)
      ensures var ls := Lineas(datos.detalles);
              var ps := old(inv.productos);
              var run := Aplicar(ps, SALIDA, ls);
        && (!StockDisponible(ps, ls) ==>
              && resp.Rechazada? && resp.error.Some?
              && exists i :: Falta(ps, ls, i) && resp.error.value == Texto(STOCK_INSUFICIENTE + ps[ls[i].idProducto].nombre))
        && (StockDisponible(ps, ls) && !Existen(ps, ls) ==> resp == Rechazada(None))
        && (StockDisponible(ps, ls) && Existen(ps, ls) && run.0 < |ls| ==>
              resp == Rechazada(Some(Texto(STOCK_INSUFICIENTE_PRODUCTO + run.1[ls[run.0].idProducto].nombre))))
        && (resp.Creada? <==> StockDisponible(ps, ls) && Existen(ps, ls) && run.0 == |ls|)
        && (resp.Rechazada? ==> Estado() == old(Estado()))
        && (resp.Creada? ==>
              && resp.idVenta == old(siguienteVenta)
              && VentaGuardada(old(ventas), old(detalles), old(siguienteVenta), old(siguienteDetalle), idUsuario, datos,
                               ventas, detalles, siguienteVenta, siguienteDetalle)
              && inv.productos == run.1)
    {
      DetallarRefrescado(inv.productos, Lineas(datos.detalles));
      resp := CrearVerificada(idUsuario, datos, true);
    }

    /** `VentaViewSet.create`: the pre-check and `perform_create` with each
        detail checking and writing the instance it was validated with, and
        then one exit movement per submitted detail through
        `MovimientoInventario.save`, which takes the quantity off the stock a
        second time. A refused movement is caught by the view's `except`, so
        the sale, its details and the movements before it stay committed
        behind the 400. */
    method AccionCrear(idUsuario: int, datos: DatosVenta) returns (resp: Respuesta)
      requires Valid()
      modifies this, inv
      ensures Valid()
      ensures var ls := Lineas(datos.detalles);
              var ps := old(inv.productos);
              var run := Detallar(ps, ls, false);
              var id := old(siguienteVenta);
              var reg := Aplicar(run.1, SALIDA, ls);
        && (!StockDisponible(ps, ls) ==>
              && resp.Rechazada? && resp.error.Some?
              && exists i :: Falta(ps, ls, i) && resp.error.value == Texto(STOCK_INSUFICIENTE + ps[ls[i].idProducto].nombre))
        && (StockDisponible(ps, ls) && !Existen(ps, ls) ==> resp == Rechazada(None) && Estado() == old(Estado()))
        && (StockDisponible(ps, ls) && Existen(ps, ls) && run.0 < |ls| ==>
              && resp == Rechazada(Some(Texto(STOCK_INSUFICIENTE_PRODUCTO + run.1[ls[run.0].idProducto].nombre)))
              && Estado() == old(Estado()))
        && (!StockDisponible(ps, ls) ==> Estado() == old(Estado()))
        && (StockDisponible(ps, ls) && Existen(ps, ls) && run.0 == |ls| ==>
              && VentaGuardada(old(ventas), old(detalles), id, old(siguienteDetalle), idUsuario, datos,
                               ventas, detalles, siguienteVenta, siguienteDetalle)
              && inv.productos == reg.1
              && inv.siguienteMovimiento == old(inv.siguienteMovimiento) + reg.0
              && Escritos(inv.movimientos, old(inv.movimientos), old(inv.siguienteMovimiento), reg.0, ls, SALIDA,
                          idUsuario, "Venta #" + Decimal(id), "V-" + Decimal(id))
              && resp == (if reg.0 == |ls| then Creada(id) else Rechazada(Some(Texto(SIN_STOCK)))))
    {
      var ls := Lineas(datos.detalles);
      resp := CrearVerificada(idUsuario, datos, false);
      if resp.Creada? {
        var id := resp.idVenta;
        var hechos := inv.Registrar(ls, SALIDA, idUsuario, "Venta #" + Decimal(id), "V-" + Decimal(id));
        if hechos < |ls| {
          resp := Rechazada(Some(Texto(SIN_STOCK)));
        }
      }
    }

    /** The end of `cancelar`: the sale is saved as cancelled, and its
        `post_save` recomputes the total. */
    method MarcarCancelada(idVenta: int, motivo: string, idUsuario: int)
      requires Valid() && idVenta in ventas
      modifies this
      ensures Valid()
      ensures ventas == old(ventas)[idVenta := old(ventas[idVenta]).(
                estado := Cancelada, motivoCancelacion := Some(motivo), canceladoPor := Some(idUsuario),
                total := TotalDe(detalles, idVenta))]
      ensures detalles == old(detalles)
      ensures siguienteVenta == old(siguienteVenta) && siguienteDetalle == old(siguienteDetalle)
    {
      ventas := ventas[idVenta := ventas[idVenta].(estado := Cancelada, motivoCancelacion := Some(motivo),
                                                   canceladoPor := Some(idUsuario))];
      ActualizarTotal(idVenta);
    }

    /** `VentaViewSet.cancelar`: only a completed sale is cancelled. One entry
        movement per detail of the sale gives its quantity back; then the
        state, the reason (empty when none is given) and the user are recorded,
        and the sale's `post_save` recomputes its total. A refused movement
        raises a `ValidationError` that the action catches, so the entries
        before it stay committed and the sale stays as it was. */
    method AccionCancelar(idVenta: nat, motivo: Option<string>, idUsuario: int) returns (resp: Respuesta)
      requires Valid()
      modifies this, inv
      ensures Valid()
      ensures detalles == old(detalles) && siguienteVenta == old(siguienteVenta) && siguienteDetalle == old(siguienteDetalle)
      ensures idVenta !in old(ventas) ==> resp == NoEncontrada && Estado() == old(Estado())
      ensures idVenta in old(ventas) && old(ventas[idVenta]).estado != Completada ==>
        resp == Rechazada(Some(Texto(SOLO_COMPLETADAS))) && Estado() == old(Estado())
      ensures idVenta in old(ventas) && old(ventas[idVenta]).estado == Completada ==>
        var ls := LineasDe(Filtrar(old(detalles), DeVenta(idVenta)));
        var reg := Aplicar(old(inv.productos), ENTRADA, ls);
        && inv.productos == reg.1
        && inv.siguienteMovimiento == old(inv.siguienteMovimiento) + reg.0
        && Escritos(inv.movimientos, old(inv.movimientos), old(inv.siguienteMovimiento), reg.0, ls, ENTRADA,
                    idUsuario, REVERSION + Decimal(idVenta), "RC-" + Decimal(idVenta))
        && (reg.0 == |ls| ==>
              && resp == Hecho(CANCELADA_CON_EXITO)
              && ventas == old(ventas)[idVenta := old(ventas[idVenta]).(
                             estado := Cancelada, motivoCancelacion := Some(if motivo.Some? then motivo.value else ""),
                             canceladoPor := Some(idUsuario), total := TotalDe(old(detalles), idVenta))])
        && (reg.0 < |ls| ==> resp == Rechazada(Some(Texto(SIN_STOCK))) && ventas == old(ventas))
    {
      if idVenta !in ventas {
        return NoEncontrada;
      }
      if ventas[idVenta].estado != Completada {
        return Rechazada(Some(Texto(SOLO_COMPLETADAS)));
      }
      var ls := LineasDe(Filtrar(detalles, DeVenta(idVenta)));
      ExistenDetalles(inv.productos, detalles, idVenta);
      var hechos := inv.Registrar(ls, ENTRADA, idUsuario, REVERSION + Decimal(idVenta), "RC-" + Decimal(idVenta));
      if hechos < |ls| {
        return Rechazada(Some(Texto(SIN_STOCK)));
      }
      MarcarCancelada(idVenta, if motivo.Some? then motivo.value else "", idUsuario);
      resp := Hecho(CANCELADA_CON_EXITO);
    }

    /** A completed sale created through `AccionCrearCorregida` and cancelled
        at once leaves the product table as it found it. */
    method CrearYCancelarCorregida(idUsuario: int, datos: DatosVenta, motivo: Option<string>)
      returns (creada: Respuesta, cancelada: Respuesta)
      requires Valid() && datos.estado == Some(Completada)
      requires forall i :: 0 <= i < |datos.detalles| ==> datos.detalles[i].cantidad >= 0
      modifies this, inv
      ensures Valid()
      ensures creada.Creada? ==> cancelada == Hecho(CANCELADA_CON_EXITO) && inv.productos == old(inv.productos)
      ensures creada.Rechazada? ==> cancelada == NoEncontrada && Estado() == old(Estado())
    {
      var ps, d0, base, id := inv.productos, detalles, siguienteDetalle, siguienteVenta;
      creada := AccionCrearCorregida(idUsuario, datos);
      if creada.Rechazada? {
        assert id == siguienteVenta;
        return creada, NoEncontrada;
      }
      CancelacionRestaura(ps, d0, base, id, datos.detalles);
      cancelada := AccionCancelar(id, motivo, idUsuario);
    }
  }
}
