/** The inventory models of `backend/apps/inventario/models.py`: products, the
    validation and restock test on them, and inventory movements, whose `save`
    moves the product's stock and records it before and after. The database is
    the class `Inventario`, two tables keyed by primary key. Prices are cents. */
module InventarioModelos {
  import opened Comun

  datatype EstadoProducto = Activo | Inactivo

  datatype Producto = Producto(idProducto: int, codigoBarras: Option<string>, nombre: string,
                               precio: int, stock: int, stockMinimo: int,
                               categoria: Option<int>, estado: EstadoProducto)

  /** The default of `stock_minimo`. */
  const STOCK_MINIMO := 5

  /** A product created without `stock_minimo` nor `estado`. */
  function NuevoProducto(id: int, codigoBarras: Option<string>, nombre: string, precio: int,
                         stock: int, categoria: Option<int>): (p: Producto)
    ensures p.stockMinimo == STOCK_MINIMO && p.estado == Activo
    ensures p.idProducto == id && p.codigoBarras == codigoBarras && p.nombre == nombre
    ensures p.precio == precio && p.stock == stock && p.categoria == categoria
  {
    Producto(id, codigoBarras, nombre, precio, stock, STOCK_MINIMO, categoria, Activo)
  }

  const STOCK_NEGATIVO := "El stock no puede ser negativo"
  const PRECIO_NEGATIVO := "El precio no puede ser negativo"

  /** `Producto.clean`: the stock is checked before the price. */
  function Clean(p: Producto): (r: Option<string>)
    ensures r.None? <==> p.stock >= 0 && p.precio >= 0
    ensures p.stock < 0 ==> r == Some(STOCK_NEGATIVO)
    ensures p.stock >= 0 && p.precio < 0 ==> r == Some(PRECIO_NEGATIVO)
  {
    if p.stock < 0 then Some(STOCK_NEGATIVO)
    else if p.precio < 0 then Some(PRECIO_NEGATIVO)
    else None
  }

  /** `necesita_reposicion`. */
  predicate NecesitaReposicion(p: Producto)
  {
    p.stock <= p.stockMinimo
  }

  /** A new product starts needing restock exactly when its stock is at most 5. */
  lemma NuevoNecesitaReposicion(id: int, codigoBarras: Option<string>, nombre: string, precio: int,
                                stock: int, categoria: Option<int>)
    ensures NecesitaReposicion(NuevoProducto(id, codigoBarras, nombre, precio, stock, categoria))
            <==> stock <= 5
  {
  }

  // ---------------------------------------------------------------------------
  // Movements

  const ENTRADA := "entrada"
  const SALIDA := "salida"
  const AJUSTE := "ajuste"

  /** The stock after a movement of type `tipo`: an entry adds the quantity, an
      exit subtracts it, an adjustment sets it, and any other type (the field's
      choices are not checked on `save`) leaves it. */
  function StockTras(stock: int, tipo: string, cantidad: int): (r: int)
    ensures tipo == SALIDA ==> (r >= 0 <==> cantidad <= stock)
    ensures tipo == ENTRADA && cantidad >= 0 ==> r >= stock
    ensures tipo != ENTRADA && tipo != SALIDA && tipo != AJUSTE ==> r == stock
  {
    if tipo == ENTRADA then stock + cantidad
    else if tipo == SALIDA then stock - cantidad
    else if tipo == AJUSTE then cantidad
    else stock
  }

  /** An entry undoes an exit of the same quantity, and an adjustment does not
      depend on the stock it replaces. */
  lemma EntradaDeshaceSalida(stock: int, cantidad: int, otro: int)
    ensures StockTras(StockTras(stock, SALIDA, cantidad), ENTRADA, cantidad) == stock
    ensures StockTras(stock, AJUSTE, cantidad) == StockTras(otro, AJUSTE, cantidad) == cantidad
  {
  }

  datatype Movimiento = Movimiento(idProducto: int, idUsuario: int, tipo: string, cantidad: int,
                                   stockAnterior: int, stockNuevo: int, descripcion: string,
                                   numeroDocumento: Option<string>)

  /** A stored movement: its snapshots agree with its type and quantity, and
      the stock it left is not negative. */
  ghost predicate Coherente(m: Movimiento)
  {
    m.stockNuevo == StockTras(m.stockAnterior, m.tipo, m.cantidad) && m.stockNuevo >= 0
  }

  const SIN_STOCK := "No hay suficiente stock disponible"

  /** The `Producto` and `Movimiento_Inventario` tables. */
  class Inventario {
    var productos: map<int, Producto>
    var movimientos: map<int, Movimiento>
    /** The next value of the `id_movimiento` sequence. */
    var siguienteMovimiento: nat

    ghost predicate Valid()
      reads this
    {
      && (forall k :: k in productos ==> productos[k].idProducto == k)
      && (forall k :: k in movimientos ==> 0 < k < siguienteMovimiento)
      && (forall k :: k in movimientos ==> Coherente(movimientos[k]) && movimientos[k].idProducto in productos)
      && siguienteMovimiento > 0
    }

    constructor (ps: map<int, Producto>)
      requires forall k :: k in ps ==> ps[k].idProducto == k
      ensures Valid()
      ensures productos == ps && movimientos == map[] && siguienteMovimiento == 1
    {
      productos := ps;
      movimientos := map[];
      siguienteMovimiento := 1;
    }

    /** `producto.save()`: writes the row back under its key. */
    method Guardar(p: Producto)
      requires Valid() && p.idProducto in productos
      modifies this
      ensures Valid()
      ensures productos == old(productos)[p.idProducto := p]
      ensures movimientos == old(movimientos) && siguienteMovimiento == old(siguienteMovimiento)
    {
      productos := productos[p.idProducto := p];
    }

    /** Rolling the product table back to a savepoint taken while it had the
        same keys. */
    method Restaurar(ps: map<int, Producto>)
      requires Valid() && ps.Keys == productos.Keys && forall k :: k in ps ==> ps[k].idProducto == k
      modifies this
      ensures Valid()
      ensures productos == ps
      ensures movimientos == old(movimientos) && siguienteMovimiento == old(siguienteMovimiento)
    {
      productos := ps;
    }

    /** `MovimientoInventario.save` for a new movement: snapshot the stock, move
        it, snapshot it again, then refuse a negative result before anything is
        written; otherwise the product and then the movement are stored. */
    method GuardarMovimiento(idProducto: int, idUsuario: int, tipo: string, cantidad: int,
                             descripcion: string, numeroDocumento: Option<string>)
      returns (r: Result<int>)
      requires Valid() && idProducto in productos
      modifies this
      ensures Valid()
      ensures var antes := old(productos[idProducto]).stock;
              var despues := StockTras(antes, tipo, cantidad);
        && (despues < 0 ==>
              r == Err(SIN_STOCK) && productos == old(productos) && movimientos == old(movimientos)
              && siguienteMovimiento == old(siguienteMovimiento))
        && (despues >= 0 ==>
              && r == Ok(old(siguienteMovimiento))
              && productos == old(productos)[idProducto := old(productos[idProducto]).(stock := despues)]
              && movimientos == old(movimientos)[old(siguienteMovimiento) :=
                   Movimiento(idProducto, idUsuario, tipo, cantidad, antes, despues, descripcion, numeroDocumento)]
              && siguienteMovimiento == old(siguienteMovimiento) + 1)
    {
      var producto := productos[idProducto];
      var stockAnterior := producto.stock;
      if tipo == ENTRADA {
        producto := producto.(stock := producto.stock + cantidad);
      } else if tipo == SALIDA {
        producto := producto.(stock := producto.stock - cantidad);
      } else if tipo == AJUSTE {
        producto := producto.(stock := cantidad);
      }
      var stockNuevo := producto.stock;
      if producto.stock < 0 {
        return Err(SIN_STOCK);
      }
      productos := productos[idProducto := producto];
      var id := siguienteMovimiento;
      movimientos := movimientos[id := Movimiento(idProducto, idUsuario, tipo, cantidad, stockAnterior,
                                                  stockNuevo, descripcion, numeroDocumento)];
      siguienteMovimiento := siguienteMovimiento + 1;
      r := Ok(id);
    }

    /** `MovimientoInventario.save` on a stored movement, as a PUT or PATCH on
        the movement endpoint runs it: the snapshot is taken afresh from the
        product's current stock and the movement is applied again on top of it;
        the row keeps its id, product and user and is overwritten. */
    method ActualizarMovimiento(k: int, tipo: string, cantidad: int,
                                descripcion: string, numeroDocumento: Option<string>)
      returns (r: Result<int>)
      requires Valid() && k in movimientos
      modifies this
      ensures Valid()
      ensures var m := old(movimientos[k]);
              var antes := old(productos[m.idProducto]).stock;
              var despues := StockTras(antes, tipo, cantidad);
        && (despues < 0 ==>
              r == Err(SIN_STOCK) && productos == old(productos) && movimientos == old(movimientos))
        && (despues >= 0 ==>
              && r == Ok(k)
              && productos == old(productos)[m.idProducto := old(productos[m.idProducto]).(stock := despues)]
              && movimientos == old(movimientos)[k :=
                   Movimiento(m.idProducto, m.idUsuario, tipo, cantidad, antes, despues, descripcion, numeroDocumento)])
      ensures siguienteMovimiento == old(siguienteMovimiento)
    {
      var m := movimientos[k];
      var producto := productos[m.idProducto];
      var stockAnterior := producto.stock;
      producto := producto.(stock := StockTras(stockAnterior, tipo, cantidad));
      if producto.stock < 0 {
        return Err(SIN_STOCK);
      }
      productos := productos[m.idProducto := producto];
      movimientos := movimientos[k := Movimiento(m.idProducto, m.idUsuario, tipo, cantidad, stockAnterior,
                                                 producto.stock, descripcion, numeroDocumento)];
      r := Ok(k);
    }

    /** One movement per line through `MovimientoInventario.save`, in order,
        stopping at the first one refused: the loops of
        `_procesar_movimientos_inventario` and `_revertir_movimientos_inventario`. */
    method Registrar(ls: seq<Linea>, tipo: string, idUsuario: int, descripcion: string, documento: string)
      returns (hechos: nat)
      requires Valid() && Existen(productos, ls)
      modifies this
      ensures Valid()
      ensures (hechos, productos) == Aplicar(old(productos), tipo, ls)
      ensures siguienteMovimiento == old(siguienteMovimiento) + hechos
      ensures Escritos(movimientos, old(movimientos), old(siguienteMovimiento), hechos, ls, tipo,
                       idUsuario, descripcion, documento)
    {
      var p0 := productos;
      var m0 := movimientos;
      var s0 := siguienteMovimiento;
      hechos := 0;
      while hechos < |ls|
        invariant 0 <= hechos <= |ls| && Valid()
        invariant Existen(productos, ls)
        invariant Aplicar(p0, tipo, ls[..hechos]) == (hechos, productos)
        invariant siguienteMovimiento == s0 + hechos
        invariant Escritos(movimientos, m0, s0, hechos, ls, tipo, idUsuario, descripcion, documento)
      {
        var l := ls[hechos];
        AplicarSiguiente(p0, tipo, ls, hechos, productos);
        var mv := movimientos;
        var r := GuardarMovimiento(l.idProducto, idUsuario, tipo, l.cantidad, descripcion, Some(documento));
        if r.Err? {
          return;
        }
        EscritosPaso(mv, movimientos[s0 + hechos], m0, s0, hechos, ls, tipo, idUsuario, descripcion, documento);
        hechos := hechos + 1;
      }
      assert ls[..hechos] == ls;
    }
  }

  /** Editing an exit without changing it takes its quantity out of stock a
      second time: after an exit of `c` units and a save of the same movement,
      the product has lost `2 * c`, and the movement's snapshot now starts from
      the stock the first application left. */
  method EdicionDescuentaOtraVez(p: Producto, c: int) returns (stock: int, anterior: int)
    requires c > 0 && p.stock >= 2 * c
    ensures stock == p.stock - 2 * c
    ensures anterior == p.stock - c
  {
    var inv := new Inventario(map[p.idProducto := p]);
    var alta := inv.GuardarMovimiento(p.idProducto, 0, SALIDA, c, "", None);
    var k := alta.value;
    var edicion := inv.ActualizarMovimiento(k, SALIDA, c, "", None);
    stock := inv.productos[p.idProducto].stock;
    anterior := inv.movimientos[k].stockAnterior;
  }

  // ---------------------------------------------------------------------------
  // A run of movements of one type over several products

  datatype Linea = Linea(idProducto: int, cantidad: int)

  predicate Existen(ps: map<int, Producto>, ls: seq<Linea>)
  {
    forall i :: 0 <= i < |ls| ==> ls[i].idProducto in ps
  }

  /** One movement's effect on the product table, or `None` when `save` refuses
      it; a product that is not in the table stops the run as well. */
  function Paso(ps: map<int, Producto>, tipo: string, l: Linea): (r: Option<map<int, Producto>>)
    ensures r.Some? ==> r.value.Keys == ps.Keys
  {
    if l.idProducto !in ps then None
    else
      var nuevo := StockTras(ps[l.idProducto].stock, tipo, l.cantidad);
      if nuevo < 0 then None else Some(ps[l.idProducto := ps[l.idProducto].(stock := nuevo)])
  }

  /** Saving one movement per line, in order, until one is refused: how many
      were saved and the product table they leave. */
  function Aplicar(ps: map<int, Producto>, tipo: string, ls: seq<Linea>): (r: (nat, map<int, Producto>))
    ensures r.0 <= |ls| && r.1.Keys == ps.Keys
    decreases |ls|
  {
    if ls == [] then (0, ps)
    else
      var antes := Aplicar(ps, tipo, ls[..|ls| - 1]);
      var l := ls[|ls| - 1];
      if antes.0 < |ls| - 1 then antes
      else match Paso(antes.1, tipo, l)
        case None => antes
        case Some(q) => (|ls|, q)
  }

  /** The quantity the lines move for one product. */
  function CantidadDe(ls: seq<Linea>, id: int): int
  {
    if ls == [] then 0
    else CantidadDe(ls[..|ls| - 1], id) + (if ls[|ls| - 1].idProducto == id then ls[|ls| - 1].cantidad else 0)
  }

  /** Saving one more line continues the run exactly when the run so far was
      complete and that line's movement is accepted. */
  lemma AplicarAgregar(ps: map<int, Producto>, tipo: string, ls: seq<Linea>, l: Linea)
    ensures var antes := Aplicar(ps, tipo, ls);
      Aplicar(ps, tipo, ls + [l]) ==
        if antes.0 < |ls| then antes
        else match Paso(antes.1, tipo, l) case None => antes case Some(q) => (|ls| + 1, q)
  {
    assert (ls + [l])[..|ls|] == ls;
  }

  /** Once a run has stopped, later lines change nothing. */
  lemma {:induction false} AplicarDetenido(ps: map<int, Producto>, tipo: string, ls: seq<Linea>, n: nat)
    requires n <= |ls|
    ensures Aplicar(ps, tipo, ls[..n]).0 < n ==> Aplicar(ps, tipo, ls) == Aplicar(ps, tipo, ls[..n])
    decreases |ls| - n
  {
    if n < |ls| {
      AplicarDetenido(ps, tipo, ls, n + 1);
      assert ls[..n + 1] == ls[..n] + [ls[n]];
      AplicarAgregar(ps, tipo, ls[..n], ls[n]);
    } else {
      assert ls[..n] == ls;
    }
  }

  /** The loop's step: after a complete run over the first `n` lines, a refused
      line `n` is where the whole run stops, and an accepted one extends it. */
  lemma AplicarSiguiente(ps: map<int, Producto>, tipo: string, ls: seq<Linea>, n: nat, q: map<int, Producto>)
    requires n < |ls| && Aplicar(ps, tipo, ls[..n]) == (n, q)
    ensures Paso(q, tipo, ls[n]).None? ==> Aplicar(ps, tipo, ls) == (n, q)
    ensures Paso(q, tipo, ls[n]).Some? ==> Aplicar(ps, tipo, ls[..n + 1]) == (n + 1, Paso(q, tipo, ls[n]).value)
  {
    assert ls[..n + 1] == ls[..n] + [ls[n]];
    AplicarAgregar(ps, tipo, ls[..n], ls[n]);
    if Paso(q, tipo, ls[n]).None? {
      AplicarDetenido(ps, tipo, ls, n + 1);
    }
  }

  /** A complete run of exits or entries changes each product's stock by the
      total quantity of its lines, and nothing else. */
  lemma {:induction false} AplicarCompleto(ps: map<int, Producto>, tipo: string, ls: seq<Linea>)
    requires Existen(ps, ls) && (tipo == SALIDA || tipo == ENTRADA)
    requires Aplicar(ps, tipo, ls).0 == |ls|
    ensures forall id :: id in ps ==>
      Aplicar(ps, tipo, ls).1[id] ==
        ps[id].(stock := if tipo == SALIDA then ps[id].stock - CantidadDe(ls, id) else ps[id].stock + CantidadDe(ls, id))
  {
    if ls != [] {
      var init, l := ls[..|ls| - 1], ls[|ls| - 1];
      assert ls == init + [l];
      AplicarAgregar(ps, tipo, init, l);
      AplicarCompleto(ps, tipo, init);
    }
  }

  /** Entries of non-negative quantities are never refused on products that
      start with non-negative stock. */
  lemma {:induction false} EntradasCompletas(ps: map<int, Producto>, ls: seq<Linea>)
    requires Existen(ps, ls)
    requires forall i :: 0 <= i < |ls| ==> ls[i].cantidad >= 0 && ps[ls[i].idProducto].stock >= 0
    ensures Aplicar(ps, ENTRADA, ls).0 == |ls|
    ensures forall id :: id in ps && ps[id].stock >= 0 ==> Aplicar(ps, ENTRADA, ls).1[id].stock >= 0
  {
    if ls != [] {
      var init, l := ls[..|ls| - 1], ls[|ls| - 1];
      assert ls == init + [l];
      AplicarAgregar(ps, ENTRADA, init, l);
      EntradasCompletas(ps, init);
    }
  }

  /** A complete run of exits leaves every product it touched with non-negative
      stock. */
  lemma {:induction false} SalidasNoNegativas(ps: map<int, Producto>, ls: seq<Linea>)
    requires Existen(ps, ls) && Aplicar(ps, SALIDA, ls).0 == |ls|
    ensures forall i :: 0 <= i < |ls| ==> Aplicar(ps, SALIDA, ls).1[ls[i].idProducto].stock >= 0
  {
    if ls != [] {
      var init, l := ls[..|ls| - 1], ls[|ls| - 1];
      assert ls == init + [l];
      AplicarAgregar(ps, SALIDA, init, l);
      SalidasNoNegativas(ps, init);
      var q := Aplicar(ps, SALIDA, init).1;
      forall i | 0 <= i < |ls| ensures Aplicar(ps, SALIDA, ls).1[ls[i].idProducto].stock >= 0 {
        if i < |init| && ls[i].idProducto != l.idProducto {
          assert ls[i] == init[i];
        }
      }
    }
  }

  /** Entries of the quantities a complete run of exits took out restore the
      product table exactly. */
  lemma EntradasRestauran(ps: map<int, Producto>, ls: seq<Linea>)
    requires Existen(ps, ls) && Aplicar(ps, SALIDA, ls).0 == |ls|
    requires forall i :: 0 <= i < |ls| ==> ls[i].cantidad >= 0
    ensures var q := Aplicar(ps, SALIDA, ls).1;
      Existen(q, ls) && Aplicar(q, ENTRADA, ls) == (|ls|, ps)
  {
    var q := Aplicar(ps, SALIDA, ls).1;
    SalidasNoNegativas(ps, ls);
    EntradasCompletas(q, ls);
    AplicarCompleto(ps, SALIDA, ls);
    AplicarCompleto(q, ENTRADA, ls);
    var r := Aplicar(q, ENTRADA, ls).1;
    assert r == ps by {
      forall id | id in ps ensures r[id] == ps[id] {
      }
    }
  }

  /** A movement written by one of the view's loops for line `l`. */
  ghost predicate Registra(m: Movimiento, l: Linea, tipo: string, idUsuario: int, descripcion: string,
                           documento: string)
  {
    m.idProducto == l.idProducto && m.tipo == tipo && m.cantidad == l.cantidad && m.idUsuario == idUsuario
    && m.descripcion == descripcion && m.numeroDocumento == Some(documento)
  }

  /** The movement table `mv` is `m0` plus one movement for each of the first
      `n` lines, the one for line `j` under key `s0 + j`. */
  ghost predicate Escritos(mv: map<int, Movimiento>, m0: map<int, Movimiento>, s0: int, n: nat, ls: seq<Linea>,
                           tipo: string, idUsuario: int, descripcion: string, documento: string)
    decreases n
  {
    && n <= |ls|
    && if n == 0 then mv == m0
       else
         && s0 + n - 1 in mv
         && Registra(mv[s0 + n - 1], ls[n - 1], tipo, idUsuario, descripcion, documento)
         && Escritos(mv - {s0 + n - 1}, m0, s0, n - 1, ls, tipo, idUsuario, descripcion, documento)
  }

  /** Writing the movement of the next line under the next free key extends the record. */
  lemma EscritosPaso(mv: map<int, Movimiento>, m: Movimiento, m0: map<int, Movimiento>, s0: int, n: nat,
                     ls: seq<Linea>, tipo: string, idUsuario: int, descripcion: string, documento: string)
    requires Escritos(mv, m0, s0, n, ls, tipo, idUsuario, descripcion, documento) && n < |ls|
    requires s0 + n !in mv
    requires Registra(m, ls[n], tipo, idUsuario, descripcion, documento)
    ensures Escritos(mv[s0 + n := m], m0, s0, n + 1, ls, tipo, idUsuario, descripcion, documento)
  {
    assert mv[s0 + n := m] - {s0 + n} == mv;
  }

  /** What the record says when the keys already in use lie below `s0`: the new
      keys are exactly `s0 .. s0 + n - 1`, the old movements are untouched and
      the movement under `s0 + j` is line `j`'s. */
  lemma {:induction false} EscritosSignifica(mv: map<int, Movimiento>, m0: map<int, Movimiento>, s0: int, n: nat,
                                             ls: seq<Linea>, tipo: string, idUsuario: int, descripcion: string,
                                             documento: string)
    requires Escritos(mv, m0, s0, n, ls, tipo, idUsuario, descripcion, documento)
    requires forall k :: k in m0 ==> k < s0
    ensures forall k :: k in mv <==> k in m0 || s0 <= k < s0 + n
    ensures forall k :: k in m0 ==> mv[k] == m0[k]
    ensures forall j :: 0 <= j < n ==> Registra(mv[s0 + j], ls[j], tipo, idUsuario, descripcion, documento)
    decreases n
  {
    if n > 0 {
      var resto := mv - {s0 + n - 1};
      EscritosSignifica(resto, m0, s0, n - 1, ls, tipo, idUsuario, descripcion, documento);
      forall k ensures k in mv <==> k in m0 || s0 <= k < s0 + n {
        if k != s0 + n - 1 {
          assert k in mv <==> k in resto;
        }
      }
      forall k | k in m0 ensures mv[k] == m0[k] {
        assert resto[k] == mv[k];
      }
      forall j | 0 <= j < n ensures Registra(mv[s0 + j], ls[j], tipo, idUsuario, descripcion, documento) {
        if j < n - 1 {
          assert s0 + j in resto;
          assert mv[s0 + j] == resto[s0 + j];
        }
      }
    }
  }
}
