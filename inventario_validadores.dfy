/** The field validators of `backend/apps/inventario/serializers.py` and the
    stock check of `MovimientoInventarioForm.clean` in
    `backend/apps/inventario/forms.py`. Each validator returns its value or
    raises with a message. */
module InventarioValidadores {
  import opened Comun
  import opened InventarioModelos

  const PRECIO_NO_POSITIVO := "El precio debe ser mayor a 0"
  const CANTIDAD_NO_POSITIVA := "La cantidad debe ser mayor a 0"

  /** `validate_stock`: zero and above pass unchanged. */
  function ValidarStock(v: int): (r: Result<int>)
    ensures r.Ok? <==> v >= 0
    ensures r.Ok? ==> r.value == v
    ensures r.Err? ==> r.msg == STOCK_NEGATIVO
  {
    if v < 0 then Err(STOCK_NEGATIVO) else Ok(v)
  }

  /** `validate_precio`: only a positive price passes. */
  function ValidarPrecio(v: int): (r: Result<int>)
    ensures r.Ok? <==> v > 0
    ensures r.Ok? ==> r.value == v
    ensures r.Err? ==> r.msg == PRECIO_NO_POSITIVO
  {
    if v <= 0 then Err(PRECIO_NO_POSITIVO) else Ok(v)
  }

  /** `validate_cantidad`: only a positive quantity passes. */
  function ValidarCantidad(v: int): (r: Result<int>)
    ensures r.Ok? <==> v > 0
    ensures r.Ok? ==> r.value == v
    ensures r.Err? ==> r.msg == CANTIDAD_NO_POSITIVA
  {
    if v <= 0 then Err(CANTIDAD_NO_POSITIVA) else Ok(v)
  }

  /** The serializer is stricter on prices than `Producto.clean`: whatever it
      accepts the model accepts, but a zero price passes the model and not the
      serializer. The two agree on stock. */
  lemma PrecioMasEstricto(p: Producto)
    ensures ValidarPrecio(p.precio).Ok? && ValidarStock(p.stock).Ok? ==> Clean(p).None?
    ensures p.precio == 0 && p.stock >= 0 ==> Clean(p).None? && ValidarPrecio(p.precio).Err?
    ensures ValidarStock(p.stock).Ok? <==> Clean(p) != Some(STOCK_NEGATIVO)
  {
  }

  /** The fields `MovimientoInventarioSerializer` declares. */
  const CAMPOS_MOVIMIENTO: set<string> :=
    {"id_movimiento", "producto", "usuario", "tipo_movimiento", "cantidad",
     "stock_anterior", "stock_nuevo", "fecha_movimiento", "descripcion", "numero_documento"}

  /** The fields listed as read-only in the serializer's `Meta`. */
  const SOLO_LECTURA_MOVIMIENTO: set<string> := {"id_movimiento", "stock_anterior", "stock_nuevo"}

  /** The nested `producto` and `usuario` serializers, declared `read_only`. */
  const ANIDADOS_MOVIMIENTO: set<string> := {"producto", "usuario"}

  /** The fields a client can write: the declared ones less both kinds of
      read-only field. */
  const ESCRIBIBLES_MOVIMIENTO: set<string> := CAMPOS_MOVIMIENTO - SOLO_LECTURA_MOVIMIENTO - ANIDADOS_MOVIMIENTO

  /** Writable fields with `id_producto` added, as a create needs. */
  const ESCRIBIBLES_CORREGIDOS: set<string> := ESCRIBIBLES_MOVIMIENTO + {"id_producto"}

  /** Exactly five fields are writable, and the foreign keys are not among them. */
  lemma CamposEscribibles()
    ensures ESCRIBIBLES_MOVIMIENTO ==
      {"tipo_movimiento", "cantidad", "fecha_movimiento", "descripcion", "numero_documento"}
  {
  }

  /** The part of a request body the serializer keeps: the keys that are
      writable fields, with their values; every other key is dropped. */
  function Escribibles<V>(datos: map<string, V>, campos: set<string>): (r: map<string, V>)
    ensures r.Keys == datos.Keys * campos
    ensures forall k :: k in r ==> r[k] == datos[k]
  {
    map k | k in datos && k in campos :: datos[k]
  }

  /** A client can never set a movement's id, its stock snapshots, its product
      or its user, whatever the body holds. */
  lemma SnapshotsNoEscribibles<V>(datos: map<string, V>)
    ensures "stock_anterior" !in Escribibles(datos, ESCRIBIBLES_MOVIMIENTO)
    ensures "stock_nuevo" !in Escribibles(datos, ESCRIBIBLES_MOVIMIENTO)
    ensures "id_movimiento" !in Escribibles(datos, ESCRIBIBLES_MOVIMIENTO)
    ensures "id_producto" !in Escribibles(datos, ESCRIBIBLES_MOVIMIENTO)
    ensures "producto" !in Escribibles(datos, ESCRIBIBLES_MOVIMIENTO)
    ensures "id_usuario" !in Escribibles(datos, ESCRIBIBLES_MOVIMIENTO)
  {
  }

  /** The product a created movement refers to: the `id_producto` the
      serializer kept, if any. Without one, `MovimientoInventario.save` fails
      at its first line, reading the stock of a missing product. */
  function ProductoDelAlta<V>(datos: map<string, V>, campos: set<string>): (r: Option<V>)
    ensures r.Some? <==> "id_producto" in datos && "id_producto" in campos
    ensures r.Some? ==> r.value == datos["id_producto"]
  {
    var e := Escribibles(datos, campos);
    if "id_producto" in e then Some(e["id_producto"]) else None
  }

  /** As written, no request body reaches `save` with a product: every create
      through the movement endpoint fails. */
  lemma AltaSinProducto<V>(datos: map<string, V>)
    ensures ProductoDelAlta(datos, ESCRIBIBLES_MOVIMIENTO).None?
  {
    SnapshotsNoEscribibles(datos);
  }

  /** With `id_producto` writable, the product the client sends is the one the
      movement is saved against, and the snapshots stay server-side. */
  lemma AltaConProducto<V>(datos: map<string, V>)
    requires "id_producto" in datos
    ensures ProductoDelAlta(datos, ESCRIBIBLES_CORREGIDOS) == Some(datos["id_producto"])
    ensures "stock_anterior" !in Escribibles(datos, ESCRIBIBLES_CORREGIDOS)
    ensures "stock_nuevo" !in Escribibles(datos, ESCRIBIBLES_CORREGIDOS)
  {
  }

  /** The data of `MovimientoInventarioForm` once its fields are clean. */
  datatype DatosMovimiento = DatosMovimiento(producto: Option<Producto>, tipo: string, cantidad: int)

  /** `MovimientoInventarioForm.clean`: only an exit with a product is checked,
      and equal stock passes; the data comes back unchanged. */
  function CleanMovimiento(d: DatosMovimiento): (r: Result<DatosMovimiento>)
    ensures r.Err? <==> d.tipo == SALIDA && d.producto.Some? && d.producto.value.stock < d.cantidad
    ensures r.Err? ==> r.msg == SIN_STOCK
    ensures r.Ok? ==> r.value == d
  {
    if d.tipo == SALIDA && d.producto.Some? && d.producto.value.stock < d.cantidad then Err(SIN_STOCK)
    else Ok(d)
  }

  /** The form and the model's `save` agree on exits: the form refuses exactly
      the exits `save` would refuse. And a movement whose quantity and data both
      pass the form is never refused by `save` on a product with non-negative
      stock. */
  lemma FormularioYGuardado(d: DatosMovimiento)
    requires d.producto.Some?
    ensures d.tipo == SALIDA ==>
      (CleanMovimiento(d).Ok? <==> StockTras(d.producto.value.stock, d.tipo, d.cantidad) >= 0)
    ensures ValidarCantidad(d.cantidad).Ok? && CleanMovimiento(d).Ok? && d.producto.value.stock >= 0 ==>
      StockTras(d.producto.value.stock, d.tipo, d.cantidad) >= 0
  {
  }
}
