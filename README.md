# Verified model of a point-of-sale backend and its admin frontend

This project models the parts of a small point-of-sale system that hold checkable rules. The system has a Django backend with apps for inventory, sales, users and tickets, and a React frontend for administrators and cashiers. Everything is written in Dafny, with one module per source file.

- **Sale screens**: the two variants of the `NuevaVenta` screen.
  - The cart is a class whose fields are the React state hooks.
  - Adding a product, changing a quantity, the total and the payload sent to the server are its methods.
- **Inventory**: products and stock movements, with the before/after snapshots of `MovimientoInventario.save` and its non-negativity guard.
  - The ORM tables are maps from primary key to record, held in a class.
  - The validators of the serializers and forms are decision functions.
- **Sales**: the sale and detail records and the `pre_save` signal that checks stock and the `post_save` signal that takes it.
  - The serializer's `create` and the `create` and `cancelar` actions of the sale view set.
  - These actions modify the ORM maps. An atomic block's rollback restores them.
- **Permissions and filters**: the five permission classes, the role-dependent `get_queryset` filters and the product and movement search filters, as pure functions.
- **Token refresh**: the `config.js` interceptors, as a sequential state machine.
  - The state is the refresh-in-flight flag and the FIFO queue of waiting requests.
  - Each event (request sent, 401 received, refresh settled) is one method.
- **Lists**: tag sorting, partitioning, toggling and drag-reordering; grouping messages by tag; the message board's tag patch; the dashboard figures; and the normalisation of the sales list.
- **Tickets**: the `Ticket` class, which totals the products it is given.

Money is integer cents throughout: the backend's decimal fields have two decimal places. Answers from the server, the clock, `localStorage` and navigation are parameters of the methods that use them.

## Model

| member | source | states |
|---|---|---|
| ApiConfig.Recurso | frontend/src/services/api/config.js:15-19 | a record path is the collection path, the id, then one `/` |
| ApiConfig.IdDeRecurso | frontend/src/services/api/config.js:15-19 | an id read back from a path rebuilds exactly that path |
| ApiConfig.RecursoIda | frontend/src/services/api/config.js:15-19 | every record path reads back as the id it was built from |
| ApiConfig.RecursoInyectivo | frontend/src/services/api/config.js:15-19 | two ids give the same record path only when they are equal |
| ApiConfig.AlEnviar | frontend/src/services/api/config.js:45-51 | `Authorization: Bearer <token>` is attached exactly when the stored token is truthy; otherwise the request passes unchanged |
| ApiConfig.LiquidacionesOrden | frontend/src/services/api/config.js:33-40 | `processQueue` settles each waiter once, at its queue position: all rejected with the error when one is given, all resolved with the token otherwise |
| ApiConfig.LiquidacionesConcatenar | frontend/src/services/api/config.js:33-40 | settling a queue is settling its parts one after the other, so the drain keeps insertion order |
| ApiConfig.Continuar | frontend/src/services/api/config.js:63-72 | a resolved waiter replays its own request with `Bearer <token>` and keeps its `_retry` mark (unset); a rejected one passes the error on |
| ApiConfig.Interceptor.constructor | frontend/src/services/api/config.js:29-31 | the module starts with no refresh in flight and an empty queue |
| ApiConfig.Interceptor.ProcesarCola | frontend/src/services/api/config.js:33-42 | the drain loop appends the settlements of the whole queue in order and leaves it empty; nothing else changes |
| ApiConfig.Interceptor.AlFallarRespuesta | frontend/src/services/api/config.js:57-92 | only a 401 on a request not yet retried enters the refresh path; while refreshing it only queues the request, otherwise it marks the request `_retry`, raises the flag and starts exactly one refresh; any other error is rejected unchanged |
| ApiConfig.Interceptor.AlTerminarRefresco | frontend/src/services/api/config.js:77-89 | on a new token, which `TokenService.refreshAccessToken` has stored, the queue is resolved with it and the starting request replayed with `Bearer <newToken>`; on failure the queue is rejected with the error and the tokens removed; the flag comes down and the queue is empty either way |
| ApiConfig.RafagaUnRefresco | frontend/src/services/api/config.js:62-81 | any number of 401s during one refresh start one refresh call; the first request is replayed marked `_retry`, and every queued one is replayed in its turn with the new token |
| Carrito.Buscar | frontend/src/pages/admin/ventas/NuevaVenta.jsx:57 | the `find` gives the first line of the product, and none exactly when no line has its id |
| Carrito.IncrementarUnico | frontend/src/pages/admin/ventas/NuevaVenta.jsx:65-69 | on a cart with unique ids the `map` raises only the found line's quantity, by one |
| Carrito.FijarCantidadUnico | frontend/src/pages/admin/ventas/NuevaVenta.jsx:100-104 | on a cart with unique ids the `map` sets only the found line's quantity |
| Carrito.FijarCantidadAusente | frontend/src/components/ventas/NuevaVenta.jsx:108-112 | setting the quantity of a product not in the cart leaves the cart as it was |
| Carrito.QuitarAusente | frontend/src/components/ventas/NuevaVenta.jsx:106 | filtering out a product not in the cart leaves the cart as it was |
| Carrito.QuitarPresente | frontend/src/pages/admin/ventas/NuevaVenta.jsx:98 | on a cart with unique ids the `filter` drops exactly the found line |
| Carrito.VentaCuadra | frontend/src/pages/admin/ventas/NuevaVenta.jsx:124-135 | the payload has one detail per cart line, in order, with its product, quantity, unit price and `precio * cantidad` as subtotal, and its total is the sum of the subtotals |
| Carrito.AgregarNuevoUnico | frontend/src/pages/admin/ventas/NuevaVenta.jsx:76-82 | appending a product not yet in the cart keeps the ids unique |
| Carrito.ReemplazarUnico | frontend/src/pages/admin/ventas/NuevaVenta.jsx:65-69 | changing a line's quantity keeps the ids unique |
| Carrito.QuitarLineaUnico | frontend/src/pages/admin/ventas/NuevaVenta.jsx:98 | dropping a line keeps the ids unique |
| NuevaVentaComponentes.BuscarProducto | frontend/src/components/ventas/NuevaVenta.jsx:98 | the lookup in the search results gives the first product with the id, and none exactly when none has it |
| NuevaVentaComponentes.NuevaVenta.constructor | frontend/src/components/ventas/NuevaVenta.jsx:6-14 | the screen starts with an empty cart, no client, empty searches, cash payment, not loading and no error |
| NuevaVentaComponentes.NuevaVenta.BuscarProductos | frontend/src/components/ventas/NuevaVenta.jsx:20-40 | an empty term clears the results; otherwise the answer replaces them, or a failed request sets the search error; the cart is untouched |
| NuevaVentaComponentes.NuevaVenta.AgregarAlCarrito | frontend/src/components/ventas/NuevaVenta.jsx:65-94 | a product in the cart gets only its line raised by one unless `cantidad + 1 > stock`, which sets the error and leaves the cart; a new product is appended at the end with quantity 1 unless its stock is below 1; each success clears the search; ids stay unique |
| NuevaVentaComponentes.NuevaVenta.ActualizarCantidad | frontend/src/components/ventas/NuevaVenta.jsx:97-114 | the stock comes from the search results (which must hold the product); above it the cart is unchanged and the error set; below 1 the line is removed; otherwise only that line's quantity is set |
| NuevaVentaComponentes.NuevaVenta.ProcesarVenta | frontend/src/components/ventas/NuevaVenta.jsx:122-196 | an empty cart or a missing token sends nothing; otherwise the cart's payload is sent, an OK JSON answer resets cart, client and payment method, and any failure keeps the cart and stores the message the source picks |
| NuevaVentaComponentes.ActualizarTrasAgregar | frontend/src/components/ventas/NuevaVenta.jsx:92-98 | right after a successful add, the lookup `actualizarCantidad` depends on finds nothing |
| NuevaVentaAdmin.NuevaVenta.constructor | frontend/src/pages/admin/ventas/NuevaVenta.jsx:9-17 | the screen starts with an empty cart, no client, empty searches, cash payment, not loading and no error |
| NuevaVentaAdmin.NuevaVenta.BuscarProductos | frontend/src/pages/admin/ventas/NuevaVenta.jsx:22-36 | an empty term clears the results; otherwise the answer replaces them, or a failed request sets the search error; the cart is untouched |
| NuevaVentaAdmin.NuevaVenta.AgregarAlCarrito | frontend/src/pages/admin/ventas/NuevaVenta.jsx:56-86 | as in the components screen, and a new line records the product's stock; every line keeps unique id, a stored stock and quantity at least 1, and a raised line stays within the stock |
| NuevaVentaAdmin.NuevaVenta.ActualizarCantidad | frontend/src/pages/admin/ventas/NuevaVenta.jsx:89-106 | above the line's stored stock the cart is unchanged and the error set; below 1 exactly that line is removed; otherwise only its quantity changes, staying within the stored stock |
| NuevaVentaAdmin.NuevaVenta.ProcesarVenta | frontend/src/pages/admin/ventas/NuevaVenta.jsx:114-154 | an empty cart is never sent; otherwise the cart's payload is sent, and a created sale leaves an empty cart, no client and cash payment, while a failure keeps the cart and stores the message |
| NuevaVentaAdmin.ActualizarTrasAgregar | frontend/src/pages/admin/ventas/NuevaVenta.jsx:76-106 | right after a product is added, `actualizarCantidad` finds its line in the cart and accepts raising it to the whole stock |
| Comun.TotalPorVacio | frontend/src/pages/admin/ventas/NuevaVenta.jsx:110 | an empty list totals 0, both the cart's `reduce` from 0 and the ticket's loop from `total = 0` (`ticket/ticket.py:38`) |
| Comun.TotalPorAgregar | ticket/ticket.py:37-41 | appending an element raises the total by exactly its amount: `precio * cantidad` for a ticket product and for a cart line (`NuevaVenta.jsx:110`) |
| Comun.TotalPorReemplazar | frontend/src/pages/admin/ventas/NuevaVenta.jsx:110 | changing one cart line changes the total by the difference of its amounts |
| Comun.TotalPorQuitar | frontend/src/pages/admin/ventas/NuevaVenta.jsx:110 | dropping one cart line lowers the total by its amount |
| Tickets.Ticket.constructor | ticket/ticket.py:5-10 | a new ticket keeps its user, client and products, with total 0 and no date |
| Tickets.Ticket.CalcularTotal | ticket/ticket.py:37-41 | the accumulation loop returns the sum of `precio * cantidad` over the products |
| Tickets.Ticket.GenerarTicket | ticket/ticket.py:12-35 | as written: the total is assigned from `calcular_total`, and then the ticket fails with a `NameError` for `datetime`, leaving the date unset |
| Tickets.Ticket.GenerarTicketCorregido | ticket/ticket.py:12-35 | the total is assigned from `calcular_total` and the date taken before anything is stored; the answer is whether the rows were stored. As written a failed insert raises `NameError` instead, since `except mysql.connector.Error` (line 31) names a module the file never imports |
| VentasVistas.VentasVisibles | backend/apps/ventas/views.py:121-128 | the filter as evidently meant, on the user's key: a cashier lists exactly the sales they made, unchanged; every other role lists them all |
| VentasVistas.VentasVisiblesTalCual | backend/apps/ventas/views.py:121-128 | as written, a cashier's listing fails on `request.user.id`; every other role lists every sale, as the corrected filter does |
| VentasVistas.DetallesVisibles | backend/apps/ventas/views.py:264-271 | the filter as evidently meant: an administrator lists every detail |
| VentasVistas.DetallesVisiblesTalCual | backend/apps/ventas/views.py:264-271 | as written, every role but an administrator fails on `request.user.id`; an administrator lists every detail, as the corrected filter does |
| VentasVistas.DetallesVisiblesPropios | backend/apps/ventas/views.py:264-271 | anyone else lists exactly the details of their own sales, in table order, and a cashier's listed detail belongs to a listed sale |
| VentasVistas.VariantesDifieren | backend/apps/ventas/views.py:126-128 | a role that is neither administrator nor cashier lists another user's sale but none of its details |
| VentasVistas.VentasVisiblesPermitidas | backend/apps/ventas/views.py:126-128 | with a method a cashier may use, a sale is listed exactly when `VentasPermission`'s object rule (backend/apps/usuarios/permissions.py:56-62) lets the cashier open it, that is, when they made it |
| VentasVistas.ClientesVisibles | backend/apps/ventas/views.py:43-50 | a cashier's client listing fails, for two reasons: it reads `self.request.user.id` (line 49), which `Usuario` lacks, and it filters on `id_usuario`, which `Cliente` lacks; other roles list every client |
| VentasVistas.CamposEditables | backend/apps/ventas/views.py:68-82 | a cashier's partial update keeps exactly the keys among `nombre`, `apellido`, `telefono`, `email`, with their values; anyone else's body is untouched |
| VentasVistas.CamposEditablesPermitidos | backend/apps/ventas/views.py:73-80 | the filtered body always passes `ClientePermission`'s PATCH rule for a cashier, and a body that already passed is not changed |
| Ventas.EstadoInicial | backend/apps/ventas/models.py:47-55 | a sale stores the state it was given, and `pendiente` when none was given |
| Ventas.NuevoDetalle | backend/apps/ventas/models.py:96-98 | a stored detail keeps the submitted product, quantity and unit price, and its subtotal is always `cantidad * precio_unitario`, whatever was submitted |
| Ventas.Nuevos | backend/apps/ventas/serializers.py:57-61 | exactly one detail per submitted detail, in order, each linked to the new sale |
| Ventas.TotalDe | backend/apps/ventas/models.py:66-69 | a sale without details totals 0 |
| Ventas.SubtotalesSonImportes | backend/apps/ventas/serializers.py:64-67 | on saved details, the serializer's sum of subtotals equals the `cantidad * precio_unitario` aggregate of `actualizar_total` |
| Ventas.TotalNuevos | backend/apps/ventas/serializers.py:57-67 | the new sale's details are exactly the ones created for it, so its recomputed total is the sum of the submitted amounts, 0 for none |
| Ventas.LineasDeNuevos | backend/apps/ventas/serializers.py:57-61 | the stock lines of the created details are the submitted ones |
| Ventas.PrecheckSuficiente | backend/apps/ventas/views.py:164-174 | with one line per product, passing the pre-check means no detail is refused afterwards |
| Ventas.PrecheckDuplicado | backend/apps/ventas/views.py:172 | the pre-check reads only the first line of a product: stock 3 and two lines of 2 pass it; each detail then checks and saves the instance it was validated with, so both are stored and the stock is written as 1 twice, after which the first exit movement is refused; with the row read afresh the second detail would be refused instead |
| Ventas.Detallar | backend/apps/ventas/signals.py:8-21 | a run of details over the lines of a sale creates at most one detail per line and keeps the product table's keys |
| Ventas.DetallarAgregar | backend/apps/ventas/serializers.py:57-61 | one more line extends the run exactly when the run so far was complete and the instance that line carries has the stock |
| Ventas.DetallarDetenido | backend/apps/ventas/serializers.py:57-61 | once a detail is refused, the later lines change nothing |
| Ventas.DetallarSiguiente | backend/apps/ventas/serializers.py:57-61 | a refused next line is where the whole run stops; an accepted one extends it by one and writes that line's instance less its quantity |
| Ventas.DetallarRefrescado | backend/apps/ventas/signals.py:8-21 | with each row read afresh, the run of details is exactly the run of exit movements over the same lines |
| Ventas.AplicarIntacto | backend/apps/inventario/models.py:86-106 | a run of movements leaves a product that no line names as it was |
| Ventas.DetallarDistintos | backend/apps/ventas/serializers.py:14-18 | when no product appears on two lines, the validated instances are the current rows, so the run of details is the run of exit movements |
| Ventas.Texto | backend/apps/ventas/views.py:157-162 | the error text of a one-message `ValidationError` is the `repr` of a one-element list: `[`, the quote `repr` picks for the message, the escaped message, the same quote and `]` |
| Ventas.Comilla | backend/apps/ventas/views.py:157-162 | the message is quoted with `"` exactly when it holds a `'` and no `"`, and with `'` otherwise |
| Ventas.Escapar | backend/apps/ventas/views.py:157-162 | a character is written as it is exactly when it is neither the quote, nor a backslash, nor unprintable |
| Ventas.DesescaparEscaparTodo | backend/apps/ventas/views.py:157-162 | reading back an escaped message gives the message |
| Ventas.TextoIda | backend/apps/ventas/views.py:157-162 | every error text reads back as its message, so distinct messages (such as two product names in `Stock insuficiente para ...`) give distinct texts |
| Ventas.TextoSimple | backend/apps/ventas/views.py:157-162 | a message with no quote, backslash or unprintable character appears between `['` and `']` as it is |
| Ventas.DobleDescuento | backend/apps/ventas/signals.py:17-21 | as written, a sale of 3 on stock 10 leaves 4 (the detail's `post_save` and the exit movement both subtract) and its cancellation gives back only 3, leaving 7 |
| Ventas.GuardadaPeroRechazada | backend/apps/ventas/views.py:145-148 | as written, stock 5 and a detail of 3 pass the pre-check and the detail, leaving 2, and then the exit movement is refused |
| Ventas.CancelacionRestaura | backend/apps/ventas/views.py:238-253 | with the stock taken once, the reversal of a sale just created has one entry line per detail and restores the product table exactly |
| Ventas.Tienda.constructor | backend/apps/ventas/models.py:23-98 | the store starts with no sales and no details over a valid inventory |
| Ventas.Tienda.CrearDetalle | backend/apps/ventas/signals.py:8-21 | a new detail is refused exactly when the product instance it carries shows `stock < cantidad`, naming the product and changing nothing; otherwise it is stored with the next key and the recomputed subtotal, and the product's row becomes that instance less `cantidad`; on the current row this is the step of an exit movement |
| Ventas.Tienda.ActualizarDetalle | backend/apps/ventas/signals.py:10-17 | saving an existing detail skips the stock check and the decrement: only its fields and subtotal change |
| Ventas.Tienda.GuardarVenta | backend/apps/ventas/serializers.py:54 | the sale is stored under the next key, and nothing else changes |
| Ventas.Tienda.FijarTotal | backend/apps/ventas/serializers.py:64-68 | only the sale's total changes |
| Ventas.Tienda.ActualizarTotal | backend/apps/ventas/models.py:66-69 | the sale's total becomes the aggregate over its details, and nothing else changes |
| Ventas.Tienda.CrearDetalles | backend/apps/ventas/serializers.py:57-61 | the loop creates one detail per submitted detail, in order, until one is refused; the count and the stock are `Ventas.Detallar` over the lines, with the instances the serializer validated or, when asked, with each row read afresh |
| Ventas.Tienda.Totalizar | backend/apps/ventas/serializers.py:63-68 | once every detail is stored, the total is the sum of the submitted amounts |
| Ventas.Tienda.Crear | backend/apps/ventas/serializers.py:50-70 | the sale gets the next key; on success it holds the submitted fields, its initial state and the sum of the amounts, with one detail per submitted one, and the stock is what `Ventas.Detallar` leaves; a refused detail is reported by product name, after the details before it |
| Ventas.Tienda.Deshacer | backend/apps/ventas/views.py:196-204 | the atomic block's rollback restores every sale, detail and product table and both counters |
| Ventas.Tienda.ValidarStockDisponible | backend/apps/ventas/views.py:164-174 | the pre-check passes exactly when every stored product has at least the quantity of its first line (equal passes, unknown ids are skipped); a failure names a product that falls short |
| Ventas.Tienda.AccionCrearCorregida | backend/apps/ventas/views.py:130-162 | create with each row read afresh and the stock taken once: a failed pre-check, an unknown product or a detail the earlier ones left short answers 400 and leaves every table; otherwise the sale is stored for the caller with the summed total and the stock is the run of exit movements over the lines |
| Ventas.Tienda.CrearVerificada | backend/apps/ventas/views.py:130-162 | the pre-check, the serializer's validation and `perform_create` in their atomic block: a failed pre-check names a product that falls short; an unknown product or a refused detail answers 400 and leaves every table; otherwise the sale is stored and the stock is what `Ventas.Detallar` leaves |
| Ventas.Tienda.AccionCrear | backend/apps/ventas/views.py:130-194 | create as written: the answers and tables of `Ventas.Tienda.CrearVerificada` with the validated instances, then one exit movement per detail with `Venta #id` and `V-id` on the stock the details left; a refused movement answers 400 and keeps what was written before it |
| Ventas.Tienda.MarcarCancelada | backend/apps/ventas/views.py:224-228 | the sale becomes `cancelada` with the reason and the user, its total recomputed, and nothing else changes |
| Ventas.Tienda.AccionCancelar | backend/apps/ventas/views.py:206-253 | a missing sale is 404 and a sale not `completada` is 400, both changing nothing; otherwise one entry per detail of the sale with `RC-id`, and if all are saved the sale is cancelled with the reason; details never change |
| Ventas.Tienda.CrearYCancelarCorregida | backend/apps/ventas/views.py:206-253 | a completed sale created with the stock taken once and then cancelled leaves every product as it was; a rejected one is not found and leaves every table |
| InventarioModelos.NuevoProducto | backend/apps/inventario/models.py:24-33 | a product created without them gets `stock_minimo` 5 and state `activo`, and keeps every given field |
| InventarioModelos.Clean | backend/apps/inventario/models.py:37-41 | `clean` passes exactly when stock and price are both non-negative (zero passes); negative stock is reported first, then a negative price |
| InventarioModelos.NuevoNecesitaReposicion | backend/apps/inventario/models.py:43-44 | with the default minimum, a new product needs restocking exactly when its stock is at most 5 |
| InventarioModelos.StockTras | backend/apps/inventario/models.py:91-96 | an exit leaves non-negative stock exactly when the quantity is at most the stock; a non-negative entry never lowers it; an unknown type leaves it |
| InventarioModelos.EntradaDeshaceSalida | backend/apps/inventario/models.py:91-96 | an entry undoes an exit of the same quantity; an adjustment sets the quantity whatever the stock was |
| InventarioModelos.Inventario.constructor | backend/apps/inventario/models.py:17-106 | the tables start with the given products, no movements and the first movement key |
| InventarioModelos.Inventario.Guardar | backend/apps/inventario/models.py:105 | `producto.save()` writes that one row back and nothing else |
| InventarioModelos.Inventario.Restaurar | backend/apps/inventario/models.py:105 | rolling the product table back to a savepoint restores it and touches no movement |
| InventarioModelos.Inventario.ActualizarMovimiento | backend/apps/inventario/models.py:86-106 | a PUT or PATCH on a stored movement (`backend/apps/inventario/views.py:144-150`) takes the snapshot afresh from the product's current stock and applies the movement again; a result below 0 raises and changes nothing; otherwise the product gets the new stock and the row is overwritten under its key, keeping product and user |
| InventarioModelos.EdicionDescuentaOtraVez | backend/apps/inventario/models.py:86-106 | saving an exit of `c` units and then saving it again unchanged takes `2 * c` out of stock, and the snapshot starts from the stock the first application left |
| InventarioModelos.Inventario.GuardarMovimiento | backend/apps/inventario/models.py:86-106 | the movement records the stock before and after; a result below 0 raises `No hay suficiente stock disponible` and stores neither the product nor the movement; otherwise the product gets the new stock and the movement the next key |
| InventarioModelos.Inventario.Registrar | backend/apps/ventas/views.py:182-194 | one movement per line, in order, until one is refused: the stock ends as the run leaves it and the movements written are exactly one per saved line, with the line's product and quantity, the type, user, description and document |
| InventarioModelos.Paso | backend/apps/inventario/models.py:86-106 | one movement's effect on the table never adds or removes a product |
| InventarioModelos.Aplicar | backend/apps/inventario/models.py:86-106 | a run saves at most one movement per line and keeps the table's keys |
| InventarioModelos.AplicarAgregar | backend/apps/inventario/models.py:102-106 | one more line extends the run exactly when the run so far was complete and that movement is accepted |
| InventarioModelos.AplicarDetenido | backend/apps/inventario/models.py:102-106 | once a movement is refused, the later lines change nothing |
| InventarioModelos.AplicarSiguiente | backend/apps/inventario/models.py:102-106 | a refused next line is where the whole run stops; an accepted one extends it by one |
| InventarioModelos.AplicarCompleto | backend/apps/inventario/models.py:91-94 | a complete run of exits (entries) lowers (raises) each product's stock by the total quantity of its lines and changes nothing else |
| InventarioModelos.EntradasCompletas | backend/apps/inventario/models.py:91-92 | entries of non-negative quantities on non-negative stock are never refused and keep the stock non-negative |
| InventarioModelos.SalidasNoNegativas | backend/apps/inventario/models.py:102-103 | every product a complete run of exits touched has non-negative stock |
| InventarioModelos.EntradasRestauran | backend/apps/inventario/models.py:91-94 | entries of the quantities a complete run of exits took out are all accepted and restore the product table exactly |
| InventarioModelos.EscritosPaso | backend/apps/inventario/models.py:106 | writing the next line's movement under the next key extends the record of written movements |
| InventarioModelos.EscritosSignifica | backend/apps/inventario/models.py:64 | the movements written have exactly the next keys, the older movements are untouched, and the key `s0 + j` holds line `j`'s movement |
| InventarioValidadores.ValidarStock | backend/apps/inventario/serializers.py:23-26 | stock passes unchanged exactly when it is at least 0; otherwise `El stock no puede ser negativo`; `clean_stock` (backend/apps/inventario/forms.py:12-16) is the same check with the same message |
| InventarioValidadores.ValidarPrecio | backend/apps/inventario/serializers.py:28-31 | a price passes unchanged exactly when it is above 0; otherwise `El precio debe ser mayor a 0`; `clean_precio` (backend/apps/inventario/forms.py:18-22) is the same check with the same message |
| InventarioValidadores.ValidarCantidad | backend/apps/inventario/serializers.py:46-49 | a quantity passes unchanged exactly when it is above 0; otherwise `La cantidad debe ser mayor a 0`; `clean_cantidad` (backend/apps/inventario/forms.py:30-34) is the same check with the same message |
| InventarioValidadores.PrecioMasEstricto | backend/apps/inventario/serializers.py:28-31 | what the serializer accepts `Producto.clean` accepts, a zero price passes `clean` and not the serializer, and the two agree on stock |
| InventarioValidadores.CamposEscribibles | backend/apps/inventario/serializers.py:34-44 | of the ten declared fields, less the `Meta` read-only ones and the nested read-only `producto` and `usuario`, exactly `tipo_movimiento`, `cantidad`, `fecha_movimiento`, `descripcion` and `numero_documento` are writable |
| InventarioValidadores.Escribibles | backend/apps/inventario/serializers.py:39-44 | the serializer keeps exactly the body's keys that are writable fields, with their values, and drops every other key |
| InventarioValidadores.SnapshotsNoEscribibles | backend/apps/inventario/serializers.py:34-44 | a client can never set `id_movimiento`, `stock_anterior`, `stock_nuevo`, `id_producto`, `producto` nor `id_usuario` |
| InventarioValidadores.ProductoDelAlta | backend/apps/inventario/models.py:88 | the product a create saves against is present exactly when the body sends `id_producto` and it is a writable field, and then it is that value |
| InventarioValidadores.AltaSinProducto | backend/apps/inventario/serializers.py:39-44 | as written, no body gives the created movement a product, so `save` fails reading `self.id_producto.stock` |
| InventarioValidadores.AltaConProducto | backend/apps/inventario/models.py:86-88 | with `id_producto` writable, the sent product is the one saved against, and the stock snapshots stay server-side |
| InventarioValidadores.CleanMovimiento | backend/apps/inventario/forms.py:36-48 | the form refuses exactly an exit with a product whose stock is below the quantity (equal passes, other types are not checked) and otherwise returns the data unchanged |
| InventarioValidadores.FormularioYGuardado | backend/apps/inventario/forms.py:42-46 | the form refuses exactly the exits `save` would refuse, and a movement the form accepts is never refused by `save` when the stock is non-negative |
| InventarioVistas.ProductosYCategorias | backend/apps/inventario/views.py:34-44 | create, destroy and update need `EsAdministrador` and every other product action `AccionesInventarioPermission`, so a cashier acts on products exactly outside those three with a cashier method; categories a cashier may only list and retrieve (views.py:138-142); an administrator passes all |
| InventarioVistas.Minusculas | backend/apps/inventario/views.py:56-57 | folding through the collation keeps the length and folds each character |
| InventarioVistas.TerminoSinMayusculas | backend/apps/inventario/views.py:56-57 | under any collation folding that is stable when applied twice, the `icontains` search does not depend on the case (or, for an accent-insensitive collation, the accents) of the term |
| InventarioVistas.PorBusquedaFiltra | backend/apps/inventario/views.py:53-58 | the search step, under the collation folding given, is the filter by its test, which holds everywhere when no term is given |
| InventarioVistas.PorCategoriaFiltra | backend/apps/inventario/views.py:61-63 | the category step is the filter by its test, which holds everywhere when no category is given |
| InventarioVistas.PorEstadoFiltra | backend/apps/inventario/views.py:66-68 | the state step is the filter by its test, which holds everywhere when no state is given |
| InventarioVistas.BuscarConjuntivo | backend/apps/inventario/views.py:46-70 | the three parameters filter conjunctively, keeping the stored order (a product matches the search when its name or bar code contains the term ignoring case), and with none given every product is listed |
| InventarioVistas.PerformUpdate | backend/apps/inventario/views.py:72-82 | a cashier's update fails with `Cajeros solo pueden actualizar el stock` exactly when it has a key other than `stock`; otherwise the data is saved as given. The exception raised is Django's `ValidationError` (`views.py:4`, `79`), which DRF does not turn into a 400, so the client receives a 500 |
| InventarioVistas.StockBajoListaReposiciones | backend/apps/inventario/views.py:84-94 | as written the endpoint fails with a `NameError` for `models`; the intended list holds exactly the products with `stock <= stock_minimo`, in stored order |
| InventarioVistas.MovimientosFiltrados | backend/apps/inventario/views.py:152-171 | the date range applies only with both bounds and the type filter on its own: a movement is listed exactly when it is stored, within both bounds when given, and of the type when given |
| Permisos.ComoAdministrador | backend/apps/usuarios/permissions.py:4-96 | the same request with the role raised to administrator keeps method, action and authentication |
| Permisos.AdministradorDomina | backend/apps/usuarios/permissions.py:4-96 | in every class an administrator is allowed whenever a cashier is, and `EsAdministrador` implies `EsCajero` |
| Permisos.PorMetodoCasos | backend/apps/usuarios/permissions.py:25-54 | `AccionesInventarioPermission` and `VentasPermission` deny an anonymous user, allow every administrator, allow a cashier exactly on POST, GET, HEAD, OPTIONS and PATCH (never PUT nor DELETE, not even on their own sale), and deny any other role |
| Permisos.ClienteCajero | backend/apps/usuarios/permissions.py:81-96 | `ClientePermission` denies a cashier `exportar_clientes` and `marcar_vip` whatever the method; a cashier's PATCH passes with no keys and fails with a key outside `CAJERO_FIELDS` |
| Permisos.VentasObjetoTalCual | backend/apps/usuarios/permissions.py:56-64 | as written, the object rule fails for a cashier on `request.user.id`; an administrator is let through and any other role refused, as in the corrected rule |
| UsuariosVistas.UsuariosVisibles | backend/apps/usuarios/views.py:17-20 | staff list every user; anyone else lists the users with their own key |
| UsuariosVistas.VisiblesPermitidos | backend/apps/usuarios/views.py:8-20 | every listed user passes `IsOwnerOrAdmin`, a non-staff user lists only their own row, and every stored user that passes the rule is listed |
| UsuariosVistas.PersonasVisibles | backend/apps/usuarios/views.py:32-35 | staff list every person; anyone else lists exactly the persons linked to their own user |
| UsuariosVistas.Me | backend/apps/usuarios/views.py:22-25 | `me` answers the requesting user, who always passes `IsOwnerOrAdmin` |
| Dashboard.PrefijoMenor | frontend/src/components/dashboard/Dashboard.jsx:46 | under JavaScript's string order a string comes strictly after each of its proper prefixes |
| Dashboard.AntesDeT | frontend/src/components/dashboard/Dashboard.jsx:66 | `split('T')[0]` is the longest prefix without a `T`, stopping just before the first one |
| Dashboard.VentasHoyAgregar | frontend/src/components/dashboard/Dashboard.jsx:41-43 | `ventasHoy` grows sale by sale: a sale adds its total exactly when its `fecha_venta` starts with today's date |
| Dashboard.ClientesDistintos | frontend/src/components/dashboard/Dashboard.jsx:57-58 | the `Set` holds exactly the distinct `id_cliente` values of the sales, a missing client being one value |
| Dashboard.ClientesCota | frontend/src/components/dashboard/Dashboard.jsx:57-58 | there are never more clients counted than sales |
| Dashboard.PocoStockFrenteAReposicion | frontend/src/components/dashboard/Dashboard.jsx:49-51 | the strict `stock < stock_minimo` count plus the products sitting exactly on their minimum is the backend's `stock <= stock_minimo` count |
| Dashboard.Invertir | frontend/src/components/dashboard/Dashboard.jsx:70 | `reverse` keeps the length and puts element `i` at `n - 1 - i` |
| Dashboard.InvertirMultiset | frontend/src/components/dashboard/Dashboard.jsx:70 | `reverse` keeps the same elements |
| Dashboard.Puntos | frontend/src/components/dashboard/Dashboard.jsx:65-69 | one chart point per sale, with its date before `T`, its total and its id |
| Dashboard.SerieRecientes | frontend/src/components/dashboard/Dashboard.jsx:62-70 | the series has `min(30, n)` points, drawn from the sorted sales so that every sale left out is no more recent than any kept one, and kept plus left out are all the sales |
| Dashboard.TopK | frontend/src/components/dashboard/Dashboard.jsx:63-64 | after sorting newest first, every sale past the first `k` is no more recent than any of them |
| Dashboard.SerieAscendente | frontend/src/components/dashboard/Dashboard.jsx:62-70 | the series is oldest first |
| Dashboard.Ultimas | frontend/src/components/dashboard/Dashboard.jsx:173 | `slice(-5)` is the last `min(5, n)` entries, in order |
| Dashboard.UltimasRecientes | frontend/src/components/dashboard/Dashboard.jsx:173 | the transaction list shows the five most recent sales, oldest first |
| Dashboard.InvertirCola | frontend/src/components/dashboard/Dashboard.jsx:70 | the last `n` of the reversed first `k` are the reversed first `n` |
| Dashboard.Cargar | frontend/src/components/dashboard/Dashboard.jsx:17-79 | when both lists arrive, today's total, the week's total (with the comparison as written, or by calendar day when asked), the strict low-stock count, the distinct clients and the chart series are set; a failure keeps the old figures and sets the error; loading ends either way |
| Dashboard.SemanaDejaFueraHoy | frontend/src/components/dashboard/Dashboard.jsx:41-47 | as written, a sale of today with a time part counts in `ventasHoy` but not in `ventasSemana` |
| Dashboard.HoyEnSemana | frontend/src/components/dashboard/Dashboard.jsx:45-47 | with the week test on the calendar day, a sale of today lies in the week |
| Dashboard.HoyDentroDeSemana | frontend/src/components/dashboard/Dashboard.jsx:41-47 | with the week test on the calendar day and non-negative totals, today's figure never exceeds the week's |
| ListaVentas.Url | frontend/src/components/ventas/ListaVentas.jsx:17-20 | the URL always starts with the sales endpoint and is exactly the endpoint when, and only when, the filter is empty |
| ListaVentas.UrlIda | frontend/src/components/ventas/ListaVentas.jsx:17-20 | a non-empty filter can be read back from the URL after `?fecha=`, and an empty one leaves no `?fecha=` |
| ListaVentas.UrlInyectiva | frontend/src/components/ventas/ListaVentas.jsx:17-20 | different filters request different URLs |
| ListaVentas.O | frontend/src/components/ventas/ListaVentas.jsx:45-50 | the `or` operator on an optional string gives `a` when it is non-empty and `b` otherwise |
| ListaVentas.Validar | frontend/src/components/ventas/ListaVentas.jsx:42-51 | `id_venta` is kept; a missing or empty name, surname and payment method become `Cliente`, `Desconocido` and `No especificado`; a missing date becomes the current instant; a total that is not a number becomes 0 |
| ListaVentas.ValidarIdempotente | frontend/src/components/ventas/ListaVentas.jsx:42-51 | a record already normalised passes normalisation unchanged, whatever the instant |
| ListaVentas.Normalizar | frontend/src/components/ventas/ListaVentas.jsx:42-51 | normalisation keeps the length and order, one normalised record per record |
| ListaVentas.NormalizarIdempotente | frontend/src/components/ventas/ListaVentas.jsx:42-51 | normalising a normalised list changes nothing |
| ListaVentas.Cargar | frontend/src/components/ventas/ListaVentas.jsx:10-62 | without a token nothing is requested; otherwise the filtered URL is; the list is shown exactly when the answer is OK and its body an array, normalised; a non-array body gives the format error, a failed status the server's message or the default; any error empties the list; loading ends either way |
| MessageBoard.BuscarMensaje | frontend/src/components/MessageBoard.jsx:73 | the `find` gives the first message with the id, and none exactly when no message has it |
| MessageBoard.Nombres | frontend/src/components/MessageBoard.jsx:79 | the existing tag names, one per tag, in order |
| MessageBoard.PlanAgregar | frontend/src/components/MessageBoard.jsx:71-87 | an unknown message id gives `Message not found`; a name already on the message returns early; otherwise the patch is the existing names in order followed by the new one |
| MessageBoard.ParcheSinRepetidos | frontend/src/components/MessageBoard.jsx:82-87 | a patch repeats no name unless the message already did |
| MessageBoard.TagsNuevoMensaje | frontend/src/components/MessageBoard.jsx:125 | `tags_list` is `[newTag]` for a non-empty tag and `[]` otherwise |
| MessageBoard.NuevoMensajeAgrupado | frontend/src/components/MessageBoard.jsx:125 | a message stored with that `tags_list` is grouped under the new tag when one was given, and under `no_tags` otherwise |
| MessageBoard.Tablero.constructor | frontend/src/components/MessageBoard.jsx:12-13 | the board starts with no messages and no tags, and the stored token |
| MessageBoard.Tablero.Expirar | frontend/src/components/MessageBoard.jsx:24-27 | the token is removed and the login page requested; the lists stay |
| MessageBoard.Tablero.FetchMessages | frontend/src/components/MessageBoard.jsx:29-48 | a 401 removes the token and keeps the list; an OK answer replaces it; any other failure changes nothing |
| MessageBoard.Tablero.FetchTags | frontend/src/components/MessageBoard.jsx:50-69 | a 401 removes the token and keeps the list; an OK answer replaces it; any other failure changes nothing |
| MessageBoard.Tablero.HandleAddTag | frontend/src/components/MessageBoard.jsx:71-114 | an unknown message throws and a repeated tag returns, both sending nothing; otherwise the planned patch is sent, a 401 removes the token, another failure throws the server's `detail` or `Failed to add tag`, and a success reloads the messages: an OK reload replaces them, a 401 ends the session, any other failure keeps them |
| MessageBoard.Tablero.HandleAddMessage | frontend/src/components/MessageBoard.jsx:115-140 | the post carries `tags_list` as above; a 401 removes the token, another failure changes nothing, a success reloads messages and then tags, each list replaced on an OK answer and kept otherwise, and the session ended when either reload answers 401 |
| MessageList.Agrupar | frontend/src/components/MessageList.jsx:7-20 | the `reduce` throws exactly when some push reaches a key the object only inherits from `Object.prototype`; otherwise the grouping is the dictionary left by the pushes of every message in order: under each tag name, or under `no_tags` when it has none |
| MessageList.AgruparMensaje | frontend/src/components/MessageList.jsx:8-19 | one message is pushed under `no_tags` when untagged and under each of its tag names in tag order otherwise, throwing exactly when one of those keys is an inherited property the dictionary does not hold |
| MessageList.Empujar | frontend/src/components/MessageList.jsx:10-11 | an inherited key (`constructor`, `toString`, `__proto__` and the rest of `Object.prototype`) that the dictionary does not hold makes the `push` throw; any other missing key starts as an empty list; the message is appended at that key and nothing else changes |
| MessageList.ClavesAplicar | frontend/src/components/MessageList.jsx:10-16 | the keys after a run of pushes are those before it and those pushed under |
| MessageList.LanzaPaso | frontend/src/components/MessageList.jsx:15-16 | one more push throws exactly when its key is inherited and not yet held |
| MessageList.LanzaConcatenar | frontend/src/components/MessageList.jsx:7-20 | a run of pushes throws exactly when its first part throws or its second part throws on what the first part left |
| MessageList.LanzaSiHeredada | frontend/src/components/MessageList.jsx:7-20 | the grouping throws exactly when some message carries a tag named like an inherited property of `Object.prototype` |
| MessageList.Claves | frontend/src/components/MessageList.jsx:9-17 | one key for an untagged message, one per tag otherwise |
| MessageList.IndiceGrupos | frontend/src/components/MessageList.jsx:7-20 | a key is in the dictionary exactly when something was pushed under it, and then it holds that key's pushes in order and is never empty |
| MessageList.AgregarMensaje | frontend/src/components/MessageList.jsx:7-20 | one more message only appends copies of itself, so every group keeps input order; it joins a group exactly when the key is one of its names, or `no_tags` for an untagged message |
| MessageList.ClavesResultado | frontend/src/components/MessageList.jsx:7-20 | the keys are exactly the tag names that occur, plus `no_tags` when some message is untagged, and every group is non-empty |
| MessageList.TotalEntradas | frontend/src/components/MessageList.jsx:7-20 | the number of grouped entries is the sum of the tag counts, an untagged message counting once |
| Ordenacion.OrdenarEstable | frontend/src/components/TagList.jsx:31-35 | the sort by a numeric key is stable: for every key, the elements with that key come out in the order they came in |
| Ordenacion.InsertarEstable | frontend/src/components/TagList.jsx:31-35 | inserting into a sorted sequence puts the new element ahead of every element with the same key |
| TagList.ConfigDe | frontend/src/components/TagList.jsx:26-28 | the config found is one of the tag's configs, and none exactly when the tag has no config |
| TagList.OrdenadosPermutacion | frontend/src/components/TagList.jsx:31-35 | the sorted tags are a permutation of the fetched ones, ordered by the configured order, a missing config counting as 0 |
| TagList.Particion | frontend/src/components/TagList.jsx:38-39 | the visible and hidden lists split the sorted tags: together they hold every tag, each keeps the sorted order and each holds only its kind |
| TagList.Posicion | frontend/src/components/TagList.jsx:57 | the first index of a tag with the id, and none exactly when no tag has it |
| TagList.Reordenar | frontend/src/components/TagList.jsx:81-83 | the moved tag lands at the destination, and without it the list is the old list without it |
| TagList.ReordenarPermutacion | frontend/src/components/TagList.jsx:81-83 | a reorder is a permutation of the visible tags |
| TagList.PayloadOrden | frontend/src/components/TagList.jsx:87-90 | one entry per visible tag, in list order, carrying the tag's id |
| TagList.PayloadRecarga | frontend/src/components/TagList.jsx:31-39 | with distinct ids, loading a list again under the order it posted gives back the same list, all of it visible |
| TagList.AlternarConserva | frontend/src/components/TagList.jsx:64-72 | a toggle moves the found tag to the end of the other list; ids stay distinct and the combined multiset is the same |
| TagList.DistintosPermutacion | frontend/src/components/TagList.jsx:38-39 | distinct ids survive any rearrangement of the same tags, as sorting, partitioning and reordering are |
| TagList.ParticionDistinta | frontend/src/components/TagList.jsx:31-39 | fetched tags with distinct ids give a visible and a hidden list that share no id and repeat none |
| TagList.TagList.constructor | frontend/src/components/TagList.jsx:7-11 | all lists empty, so no id is repeated; hidden tags not shown; loading |
| TagList.TagList.LoadTags | frontend/src/components/TagList.jsx:14-49 | an answer replaces the three lists with the sorted tags and their partition, which repeats no id when the fetched tags do not; a failure keeps them; loading ends either way |
| TagList.TagList.Toggle | frontend/src/components/TagList.jsx:55-76 | the post carries the opposite of the current hidden state; a success moves the tag between the lists, keeping distinct ids and the multiset; a failure changes nothing |
| TagList.TagList.DragEnd | frontend/src/components/TagList.jsx:78-97 | no destination does nothing; otherwise the reordered list is posted with indexes as orders and replaces the visible list only after the post succeeded; no id becomes repeated |

## Left out

- `frontend/src/services/auth/tokenService.js` is not part of this model. Its store is the interceptor's `accessToken` field: `refreshAccessToken` leaves the new token there and `removeTokens` empties it.
- Network I/O, `localStorage`, `navigate`, alerts and the console: each server answer, the stored token and the clock are parameters. A screen's methods return or record what would be sent.
- Promises and React re-renders are modelled sequentially. Each handler is one method that runs to completion with the server's answer given. Interleavings of two handlers of one screen are not modelled; the interceptor's queue is, one event at a time.
- Rendering, styling, routing and form binding in every `.jsx` file. Only the state the handlers compute is modelled.
- The 300 ms debounce of the product and client searches: a search is one call with the term and the answer.
- MessageBoard's alerts and the timers of `MessageItem`. The edit and delete handlers of `MessageBoard.jsx` are also left out: they only forward a request and reload.
- `backend/apps/inventario/utils.py`, `backend/apps/inventario/signals.py`, the raw MySQL schema files, and the models and serializers of `backend/apps/usuarios`. They are not part of this model.
- `cliente/cliente.py` is not part of this model. `ticket/ticket.py` imports it, and `aplicar_puntos` and `obtener_cliente` are not modelled. Neither is the database part of `generar_ticket` (connection and inserts): its outcome is the parameter `guardado`. A failed insert would not return `False` either: `except mysql.connector.Error` (`ticket/ticket.py:31`) names `mysql`, which the file never imports, so evaluating that clause raises `NameError`.
- The clients table and the `exportar_clientes` and `marcar_vip` actions are left out.
- The `perform_create` and `perform_update` of `ClienteViewSet` are left out. They pass `creado_por` and `ultima_modificacion_por` to `save` (`backend/apps/ventas/views.py:57-59`, `66`), and `Cliente` has neither field, so both would fail.
- DRF returns decimal fields as strings. The frontend sums and the `typeof total` test in `ListaVentas.jsx` would then see strings. The model takes totals as numbers in cents.
- Ventas.Tienda.AccionCancelar: does not record `fecha_cancelacion`. The clock is not modelled.
- Misnamed ORM lookups in `backend/apps/ventas/views.py`. Each is modelled as the lookup evidently meant:
  - `venta.id`: the primary key is `id_venta`.
  - `venta__id_usuario` on `Venta`, and `filter(venta=...)` and `detalle.producto` on details: the fields are `id_venta` and `id_producto`.
  - `select_related('inventario')` at line 170: this names a relation `Producto` does not have.
- In `backend/apps/usuarios/views.py`, `Persona.objects.filter(usuario=...)` names a field `Persona` does not have; it is modelled as the key `id_usuario` meant.
- VentasVistas.DetallesVisiblesPropios: is about the filter as evidently meant. As written, a non-administrator's detail listing fails on `request.user.id` (`VentasVistas.DetallesVisiblesTalCual`).
- VentasVistas.VariantesDifieren: compares the filters as evidently meant. As written, the other role lists every sale and its detail listing fails rather than coming back empty.
- VentasVistas.VentasVisiblesPermitidas: relates the filter and the object rule as evidently meant. As written, both fail for a cashier (`VentasVistas.VentasVisiblesTalCual`, `Permisos.VentasObjetoTalCual`), and the object rule would also compare the owner instance `obj.id_usuario` with a number.
- `IsOwnerOrAdmin` compares `obj == request.user`, which never holds for a `Persona`. The model compares the keys.
- `ClienteViewSet` is guarded by `VentasPermission` (`backend/apps/ventas/views.py:41`). That class's object rule reads `obj.id_usuario`, which `Cliente` lacks. `ClientePermission` is modelled on its own, and `VentasVistas.CamposEditablesPermitidos` relates the field filter to it.
- The permission checks that surround the `create` and `cancelar` actions are not modelled inside them. DRF runs `check_permissions` (`IsAuthenticated`, `VentasPermission`, `backend/apps/ventas/views.py:118`) before either action. `cancelar` then calls `self.get_object()` (line 212), which applies `get_queryset` and `VentasPermission.has_object_permission` (`backend/apps/usuarios/permissions.py:56-64`); for a cashier both fail on `request.user.id` (`backend/apps/ventas/views.py:127`, `permissions.py:62`). As written, only an administrator reaches the cancellation. Both actions are modelled for a request already admitted.
- `Venta.fecha` is read-only in the serializer, and the model field has no default. A database would therefore refuse the insert. The model keeps no sale date and stores the sale.
- `Venta.total` is read-only in the serializer and is NOT NULL with no default (`backend/apps/ventas/models.py:38`), so the first insert at `backend/apps/ventas/serializers.py:54` would also be refused. The model stores the sale with total 0 before the details.
- `create` writes `request.user.id` into the request data (`backend/apps/ventas/views.py:141`). `Usuario` has no `id`, so as written this raises and `create` answers 400 for every caller; even read as `id_usuario`, the key is not among the serializer's fields and would be dropped. The model takes it as the caller's key, as `perform_create` means to, and the create actions are modelled from there on.
- `perform_create` of `VentaViewSet` (`backend/apps/ventas/views.py:201-204`) passes `id_usuario=self.request.user.id`, which `Usuario` lacks, and `creado_por`, which `Venta` lacks; `DetalleVentaViewSet.perform_create` (line 277) passes `creado_por` too. These calls would fail. The model stores the sale for the caller's key, and direct detail creation is not modelled.
- The `post_save` handler on `Venta` calls `save()` again, which recurses without bound. The model runs `actualizar_total` once per save.
- Ventas.Tienda.Deshacer: also restores the model's key counters. A database's auto-increment sequence would not reuse the keys consumed by a rolled-back insert.
- Ventas.Tienda.ValidarStockDisponible: says only that the failure message names some product that falls short. The queryset it walks has no `order_by`, so which product comes first is up to the database.
- Dashboard.Cargar: reads each sale's `fecha_venta` as given. The backend's `VentaSerializer` (`backend/apps/ventas/serializers.py:37-47`) sends `fecha` and no `fecha_venta`, so against this backend `Dashboard.jsx:42` throws on the first sale and the handler takes the error path; the model computes the figures the screen would show for sales that carry `fecha_venta`.
- InventarioVistas.ContieneSinMayusculas: `__icontains` compares under the database collation, which is a parameter of the model folding one character at a time. Collation rules that fold several characters together (an expansion such as `ß` and `ss`) or ignore some characters are not modelled.
- Ventas.Texto: escapes the unprintable characters of Latin-1 as `repr` does, but writes every character beyond it as it is; `repr` writes `\u` or `\U` escapes for the unprintable ones there (format and separator characters, for instance).
- The serializer's own error text is modelled as absent (`None`) where DRF would format field errors. Only the view's messages are modelled.
- Negative quantities: the backend does not reject them at sale creation. `Ventas.CancelacionRestaura` requires non-negative quantities.
- A sale created without an `estado` gets `pendiente` (`Ventas.EstadoInicial`). Only a `completada` sale can be cancelled (`Ventas.Tienda.AccionCancelar`), so such a sale can never be cancelled. The model states this and does not change it.
- InventarioModelos.Inventario.ActualizarMovimiento: models an update that keeps the movement's product; the serializer cannot change it anyway. The date `fecha_movimiento` is not modelled.
- `registrar_movimiento` of `backend/apps/inventario/views.py:96-123` is not modelled separately. It is `InventarioModelos.Inventario.GuardarMovimiento` behind a 400 answer.
- `MovimientoInventarioForm.clean` when `clean_cantidad` has already failed compares against `None`. The model starts from a quantity that passed.

## Findings

| source | as written | input that shows it | evidently intended | confidence | as-written member | corrected member |
|---|---|---|---|---|---|---|
| backend/apps/ventas/signals.py:17-21 | each detail's `post_save` takes its quantity off the product, and `_procesar_movimientos_inventario` (backend/apps/ventas/views.py:182-194) takes it off again with an exit movement; cancelling gives it back once | stock 10 and one detail of 3: 4 after the sale, 7 after its cancellation; stock 5 and a detail of 3: the sale is stored and then answered with a 400 | a sale takes each quantity off once, and cancelling it restores the stock | not executed | Ventas.Tienda.AccionCrear (shown by Ventas.DobleDescuento and Ventas.GuardadaPeroRechazada) | Ventas.Tienda.AccionCrearCorregida (with Ventas.CancelacionRestaura and Ventas.Tienda.CrearYCancelarCorregida) |
| backend/apps/ventas/signals.py:8-21 | each detail's `validar_stock` checks, and its `actualizar_stock` decrements and saves, the product instance the serializer fetched when it validated that detail, so two lines of one product are each checked against, and each written from, the stock before the sale | stock 3 and two lines of 2: the pre-check reads only the first line and passes, both details are stored, the stock is written as 1 twice, and the first exit movement is refused, so the answer is a 400 with the sale committed | each detail is checked against, and taken from, the stock the earlier details left | not executed | Ventas.Tienda.AccionCrear (shown by Ventas.PrecheckDuplicado) | Ventas.Tienda.AccionCrearCorregida (with Ventas.DetallarRefrescado) |
| ticket/ticket.py:14 | `generar_ticket` reads `datetime`, which the file never imports, so it raises `NameError` after setting the total and before storing anything | any ticket, for example one with no products | the date is taken from the clock and the ticket is stored | not executed | Tickets.Ticket.GenerarTicket | Tickets.Ticket.GenerarTicketCorregido |
| backend/apps/inventario/views.py:91 | `stock_bajo` uses `models.F`, but the file never imports `models`, so the endpoint fails with `NameError` | any request, even with an empty product table | the products with `stock <= stock_minimo` | not executed | InventarioVistas.StockBajoTalCual (shown by InventarioVistas.StockBajoListaReposiciones) | InventarioVistas.StockBajo (with InventarioVistas.StockBajoListaReposiciones) |
| frontend/src/components/ventas/NuevaVenta.jsx:93,98 | `agregarAlCarrito` empties `productosEncontrados`, and `actualizarCantidad` then looks up the product's stock there and reads `stock` of `undefined` | search for a product with stock 1, add it, then change its quantity in the cart | the stock check uses the product's stock carried by the cart line, as the admin variant of the screen does | not executed | NuevaVentaComponentes.ActualizarTrasAgregar | NuevaVentaAdmin.ActualizarTrasAgregar (over NuevaVentaAdmin.NuevaVenta.ActualizarCantidad) |
| frontend/src/components/dashboard/Dashboard.jsx:45-47 | `ventasSemana` compares the full `fecha_venta` timestamp with the bare date `hoy`, so a timestamp of today sorts after `hoy` and is left out | a sale dated `hoy + "T10:00:00"`: it counts in `ventasHoy` but not in `ventasSemana` | the calendar day of the sale lies between the two bounds | not executed | Dashboard.SemanaDejaFueraHoy (over Dashboard.Cargar as written) | Dashboard.VentasSemanaPorDia (with Dashboard.HoyDentroDeSemana; Dashboard.Cargar with `porDia`) |
| backend/apps/ventas/views.py:127 | the cashier branch of `VentaViewSet.get_queryset` filters on `request.user.id`, but the user model's key is `id_usuario` and it has no `id` attribute, so the listing raises `AttributeError` | any sale listing by a cashier | a cashier lists the sales they made | not executed | VentasVistas.VentasVisiblesTalCual | VentasVistas.VentasVisibles (with VentasVistas.VentasVisiblesPermitidas) |
| backend/apps/ventas/views.py:270 | `DetalleVentaViewSet.get_queryset` filters every non-administrator on `request.user.id`, which the user model does not have | any detail listing by a cashier | a non-administrator lists the details of the sales they made | not executed | VentasVistas.DetallesVisiblesTalCual | VentasVistas.DetallesVisibles (with VentasVistas.DetallesVisiblesPropios) |
| backend/apps/usuarios/permissions.py:62 | `VentasPermission.has_object_permission` compares with `request.user.id` for a cashier, which the user model does not have | a cashier opening any sale | a cashier may open, with the methods allowed to them, the sales they made | not executed | Permisos.VentasObjetoTalCual | Permisos.VentasObjeto (with VentasVistas.VentasVisiblesPermitidas) |
| backend/apps/inventario/serializers.py:39-44 | `MovimientoInventarioSerializer` exposes the product only as the nested read-only `producto`, so `id_producto` is not a writable field and is dropped from the body; `perform_create` supplies only the user, and `MovimientoInventario.save` then reads `self.id_producto.stock` (`models.py:88`) on a movement with no product | any `POST /api/movimientos/`, for example one whose body sends `id_producto`, `tipo_movimiento` `salida` and `cantidad` 1 | the movement is saved against the product the client names | not executed | InventarioValidadores.AltaSinProducto | InventarioValidadores.AltaConProducto |
