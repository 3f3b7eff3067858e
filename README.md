# Agricultural marketplace: stores, checkout and catalogue

A model of the logic of a React client for an agricultural marketplace. The client keeps all its data in in-memory mock services:
- module-level arrays, changed in place;
- counters, advanced by one per insertion;
- `setTimeout`-wrapped promises around both.

The model drops the asynchronous wrappers. It keeps the state changes and the pure computations:

- **Product store** (`productos.dfy`, module `Productos`): the product list as a class with a `seq<Product>` field.
  - Append with a caller-chosen id.
  - First-match lookup.
  - Merge-update at the found index.
  - Delete-all-by-id.
- **Order store** (`ordenes.dfy`, module `Ordenes`): the order list and `lastId` counter as a class. Each operation becomes a method:
  - `crear` walks the requested items against the product store. It checks existence and stock, accumulates `precio * cantidad` and decrements each product's stock. It then takes `++lastId` and appends the order.
  - `cancelar` restores stock for a pending order.
  - `actualizarEstado` overwrites an order's state.
  - Filter queries and the statistics reducer are functions.
  - The quick-checkout `crearOrden`/`procesarPago` pair builds a quantity-1 order and its paid copy with an invoice number.

  The walk of `crear` is specified by the function `Reservar`, and `cancelar` by `Restaurar`. Both are proved against the stock view `StockOf` (the `cantidad` of the first product with an id).
- **Message store** (`mensajes.dfy`, module `Mensajes`): messages and their counter as a class.
  - Send.
  - Mark read (first match).
  - Delete (splice of the first match).
  - Unread and conversation queries.
  - "Latest message per counterpart", specified by a left fold that mirrors the `Map` the source fills.
- **Documents** (`documentos.dfy`, module `Documentos`):
  - Validators for RUT, DIAN, INVIMA and ICA numbers.
  - `FE-`/`CO-` identifiers, with a parser proved to be their inverse.
  - The in-place document update of a `Usuario` object.
  - The VUCE/MUISCA completeness checks.
  - The 15-day expiry watch-list.
- **Cart** (`carrito.dfy`, module `Carrito`):
  - The subtotal, VAT, withholding, shipping and total reducers, with their default rates.
  - The three-step checkout (`activeStep`, `orden`) as a class whose methods are `handleNext`, `handleBack` and `handleFinish`.
- **Catalogue filter** (`lista_productos.dfy`, module `ListaProductos`): the case-insensitive search combined with the type filter.
- **Shared helpers**:
  - `common.dfy`: Option, Result, `Array.filter` and subsequences.
  - `sorting.dfy`: a sort by an integer key (sorted, and a permutation of its input), standing in for `Array.sort` with a numeric comparator.
  - `text.dfy`: ASCII `toLowerCase`, `includes`, `startsWith`, and the decimal rendering of integers with its inverse.

Prices, rates and totals are `real`. Timestamps and dates are `int` values passed in by the caller.

## Model

| member | source | states |
|---|---|---|
| Productos.ProductStore.constructor | src/services/productos.ts:4 | the store starts empty |
| Productos.ProductStore.ObtenerProductos | src/services/productos.ts:19-21 | the catalogue as stored: the same products, in the same order, with repeated ids kept; every product the lookup by id can return is in it, and every listed product can be looked up by its id |
| Productos.ProductStore.CrearProducto | src/services/productos.ts:8-16 | the product comes back with the new id and creation time; the store grows by exactly one entry; every earlier entry is unchanged and the new product is last |
| Productos.ProductStore.ObtenerProductoPorId | src/services/productos.ts:24-26 | `None` exactly when no product has the id; otherwise the product at the first index carrying the id |
| Productos.IndexOf | src/services/productos.ts:30 | a found index is in range and holds the id |
| Productos.IndexOfFirst | src/services/productos.ts:30 | `findIndex` returns the first match: no earlier product has the id, and `None` means no product at all has it |
| Productos.ProductStore.ActualizarProducto | src/services/productos.ts:29-36 | on an absent id: `None` and the store is unchanged; on a present id: only the first matching index changes, to the merge of the old record with the patch, which is returned |
| Productos.MergeCantidad | src/services/productos.ts:32 | merging a patch that only sets `cantidad` changes only `cantidad` |
| Productos.MergeNothing | src/services/productos.ts:32 | merging an empty patch leaves the record as it was |
| Productos.ProductStore.EliminarProducto | src/services/productos.ts:39-46 | returns true exactly when some product has the id; then every product with the id is removed; otherwise nothing changes |
| Productos.SinProducto | src/services/productos.ts:42 | no product with the id is left |
| Productos.SinProductoKeepsOthers | src/services/productos.ts:42 | removal keeps order (a subsequence), keeps every product with another id and adds nothing |
| Productos.ActualizarCantidad | src/services/ordenes.ts:116-118 | the stock write of `crear`/`cancelar`, a merge of `{cantidad}`, is the same as overwriting `cantidad` at the first match |
| Productos.StockAfterSet | src/services/ordenes.ts:116-118 | after that write the product's stock is the new value and every other id's stock is unchanged |
| Ordenes.ReservarDesdeNoEncontrado | src/services/ordenes.ts:103-104 | an item whose product is missing stops the walk with "not found" for that id, leaving the stock as it stood |
| Ordenes.ReservarDesdeSinStock | src/services/ordenes.ts:105 | an item asking for more than the stock stops the walk with "insufficient stock", naming the product |
| Ordenes.ReservarDesdeFalloCausa | src/services/ordenes.ts:102-105 | a failed walk fails at some item, either because its product is missing or because its stock is below the requested quantity |
| Ordenes.Reservar | src/services/ordenes.ts:98-119 | on success one order line per item, with the total the sum of the line amounts; on failure the walk stopped at one of the items |
| Ordenes.ReservarLineas | src/services/ordenes.ts:102-111 | on success there is one order line per item, in item order, carrying the item's id and quantity and the product's price |
| Ordenes.ReservarTotal | src/services/ordenes.ts:99-113 | on success the total is Σ `precio * cantidad` over the order lines |
| Ordenes.ReservarSoloStock | src/services/ordenes.ts:115-118 | on success the catalogue differs from the old one only in the `cantidad` fields |
| Ordenes.ReservarStock | src/services/ordenes.ts:102-119 | on success every id's stock drops by exactly the total quantity the items request for it |
| Ordenes.ReservarStockDe | src/services/ordenes.ts:102-119 | the same for one given id |
| Ordenes.ReservarCantidades | src/services/ordenes.ts:102-111 | per product, the units on the lines of a successful walk are the units the items asked for |
| Ordenes.ReservarNoNegativo | src/services/ordenes.ts:105-118 | on success no requested product's stock is negative |
| Ordenes.ReservarFallo | src/services/ordenes.ts:102-119 | on failure there is no rollback: the catalogue is what a successful walk over the items before the failing one leaves, and the failing item is missing or short of stock in that catalogue |
| Ordenes.ReservarSinStock | src/services/ordenes.ts:105 | a single item asking for more than the stock fails with "insufficient stock" and changes nothing |
| Ordenes.ReservarItem | src/services/ordenes.ts:103-118 | one pass of the loop: a missing product gives "not found" and a short stock gives "insufficient stock", both leaving the catalogue unchanged; otherwise the line carries the item's id and quantity and the product's price, and the stock drops by the quantity |
| Ordenes.ReservarEnCatalogo | src/services/ordenes.ts:98-119 | the loop of `crear` leaves the product store as `Reservar` says; it returns the error on failure, and the lines (one per item) and total on success |
| Ordenes.RetirarStock | src/services/ordenes.ts:116-118 | one stock write in `crear` lowers that product's stock by the item's quantity and leaves every other id's stock unchanged |
| Ordenes.Restaurar | src/services/ordenes.ts:170-177 | the catalogue after `cancelar` keeps its length, and every id is found at the same position as before |
| Ordenes.RestaurarPaso | src/services/ordenes.ts:170-177 | restoring the lines from index `j` on is putting back line `j` and then restoring the rest |
| Ordenes.ReponerStock | src/services/ordenes.ts:171-176 | putting back one line raises that product's stock by its quantity when the product exists, and changes nothing else |
| Ordenes.ReponerItem | src/services/ordenes.ts:171-176 | one pass of the `cancelar` loop: the line's units go back to its product when it exists, as `Reponer` says, and the catalogue is unchanged otherwise |
| Ordenes.RestaurarSoloStock | src/services/ordenes.ts:170-177 | restoring changes only `cantidad` fields |
| Ordenes.RestaurarStock | src/services/ordenes.ts:170-177 | after restoring, every existing id's stock rises by the total quantity its lines carry |
| Ordenes.ReponerEnCatalogo | src/services/ordenes.ts:170-177 | the loop of `cancelar` leaves the product store as `Restaurar` says |
| Ordenes.CancelarDeshaceCrearStock | src/services/ordenes.ts:165-180 | restoring the lines of a successful `crear` gives every id back its stock from before the order |
| Ordenes.CancelarDeshaceCrear | src/services/ordenes.ts:165-180 | restoring the lines of a successful `crear` gives back the catalogue from before it, record for record |
| Ordenes.IndexOfOrden | src/services/ordenes.ts:157 | `find` locates the first order with the id, or reports that there is none |
| Ordenes.ConEstadoCualquiera | src/services/ordenes.ts:156-161 | setting the state of a present order changes exactly that order's state, whatever the old and new states; every other order is unchanged |
| Ordenes.CancelarUnaVez | src/services/ordenes.ts:167-179 | once an order has been cancelled it can no longer be cancelled |
| Ordenes.OrdenStore.constructor | src/services/ordenes.ts:6-7 | no orders and `lastId` 0 |
| Ordenes.OrdenStore.Crear | src/services/ordenes.ts:92-143 | the catalogue ends up as the walk leaves it, even on failure. A failed walk returns its error and stores no order. An empty item list consumes an id and fails at `productosOrden[0]`. On success the order gets `old lastId + 1`, state pending and the walk's lines and total, and is appended at the end |
| Ordenes.OrdenStore.ObtenerPorId | src/services/ordenes.ts:146-148 | `None` exactly when no order has the id; otherwise the first order with it |
| Ordenes.OrdenStore.ObtenerPorComprador | src/services/ordenes.ts:151-153 | exactly the buyer's orders, in store order |
| Ordenes.OrdenStore.ObtenerPorEstado | src/services/ordenes.ts:184-186 | exactly the orders in that state, in store order |
| Ordenes.OrdenStore.ActualizarEstado | src/services/ordenes.ts:156-162 | true exactly when the id is present; the state is then overwritten with no transition check, and nothing else changes |
| Ordenes.OrdenStore.Cancelar | src/services/ordenes.ts:165-181 | true exactly when the order exists and is pending. Otherwise nothing changes. When true, the order's lines are restored to the catalogue and the state becomes cancelled |
| Ordenes.ContarEstados | src/services/ordenes.ts:203-206 | the per-state record has a key exactly for the states that occur, holding how many orders are in that state |
| Ordenes.ConteosSuman | src/services/ordenes.ts:203-206 | the five per-state counts add up to the number of orders |
| Ordenes.ConteosDeEstados | src/services/ordenes.ts:203-206 | reading a missing key as 0, the per-state counts add up to the number of orders |
| Ordenes.PromedioPorCantidad | src/services/ordenes.ts:201 | for a non-zero count, the average times the count is the sum |
| Ordenes.CalcularEstadisticas | src/services/ordenes.ts:195-213 | `totalOrdenes` counts the relevant orders, `totalVentas` sums their totals, the average is 0 without orders, and the per-state counts add up to `totalOrdenes` |
| Ordenes.EstadisticasPromedio | src/services/ordenes.ts:199-201 | with orders, average × count = total sales |
| Ordenes.EstadisticasGlobales | src/services/ordenes.ts:195-197 | a buyer id of 0 is falsy and means all orders, the same as no id |
| Ordenes.OrdenStore.Estadisticas | src/services/ordenes.ts:189-214 | statistics over the store, covering the whole store when the buyer id is missing or 0 |
| Ordenes.CrearOrden | src/services/ordenes.ts:24-45 | the order has id `ahora`, the buyer, state pending and no invoice; it has one quantity-1 line per product, in order, and its total is the sum of the line amounts |
| Ordenes.SumaPrecios | src/services/ordenes.ts:25 | with no negative price, the sum of prices is not negative and is at least every single price |
| Ordenes.ImporteUnitario | src/services/ordenes.ts:25 | with quantity-1 lines, the line amounts add up to the sum of prices, which is what the source computes |
| Ordenes.ProcesarPago | src/services/ordenes.ts:48-69 | the copy is paid and carries an invoice number that parses back to the order id and the clock reading; every other field is the original's |
| Mensajes.MensajeStore.constructor | src/services/mensajes.ts:4-5 | no messages and `lastId` 0 |
| Mensajes.MensajeStore.Enviar | src/services/mensajes.ts:9-30 | appends exactly one message. The message has id `old lastId + 1`, is unread and carries the given sender, receiver, content, product and time. Ids stay increasing |
| Mensajes.IndexOfMensaje | src/services/mensajes.ts:47 | `find`/`findIndex` give the first message with the id, or report that there is none |
| Mensajes.MensajeStore.MarcarComoLeido | src/services/mensajes.ts:46-52 | true exactly when some message has the id; only the first match gets `leido` set |
| Mensajes.LeidoIdempotente | src/services/mensajes.ts:46-52 | marking the same id twice is marking it once |
| Mensajes.MensajeStore.ObtenerNoLeidos | src/services/mensajes.ts:55-59 | exactly the unread messages addressed to the user, in store order |
| Mensajes.NoLeidosTrasLeido | src/services/mensajes.ts:50-58 | with increasing ids, a message just marked read is not among anyone's unread messages |
| Mensajes.NoLeidosTrasEnviar | src/services/mensajes.ts:15-58 | after a send, the unread list is the old one plus the new message when it is addressed to that user |
| Mensajes.MensajeStore.Eliminar | src/services/mensajes.ts:62-68 | true exactly when some message has the id; then the first match is spliced out and the length drops by one |
| Mensajes.SinMensajeCrecientes | src/services/mensajes.ts:66 | the splice keeps the ids increasing |
| Mensajes.SinMensajeQuita | src/services/mensajes.ts:66 | with increasing ids, no message with the id is left after the splice |
| Mensajes.Conversacion | src/services/mensajes.ts:38-42 | a message is in the conversation exactly when it is in the store, runs between the two users in either direction, and matches the product when one is given (0 counts as none); the result is sorted by send time and is a reordering of the filtered messages, each as often as it occurs in the store |
| Mensajes.MensajeStore.ObtenerConversacion | src/services/mensajes.ts:33-43 | the same over the store: the filtered messages with their multiplicities, in non-decreasing send time |
| Mensajes.ConversacionSimetrica | src/services/mensajes.ts:38-41 | swapping the two users gives the same conversation |
| Mensajes.Clave | src/services/mensajes.ts:78 | `Map.get`: an entry with the counterpart's key, or none with it |
| Mensajes.Conversaciones | src/services/mensajes.ts:76-82 | the `forEach` adds at most one map entry per message it walks |
| Mensajes.Ultimos | src/services/mensajes.ts:85-86 | the latest messages come in non-increasing send time |
| Mensajes.ConversacionesClaves | src/services/mensajes.ts:76-82 | the map holds each counterpart once, and each entry's message involves the user and has that counterpart |
| Mensajes.ConversacionesCubre | src/services/mensajes.ts:76-82 | every counterpart met along the way has an entry |
| Mensajes.ConversacionesMaximo | src/services/mensajes.ts:76-82 | each entry holds a message no older than any other with that counterpart; on equal times it holds the first one met, because the test is strict |
| Mensajes.UltimosUnoPorContraparte | src/services/mensajes.ts:72-86 | at most one message per counterpart |
| Mensajes.UltimosMasReciente | src/services/mensajes.ts:72-86 | each kept message is in the store, involves the user and is no older than any message with the same counterpart; every earlier message with that counterpart is strictly older |
| Mensajes.UltimosCubre | src/services/mensajes.ts:72-86 | every counterpart the user has exchanged a message with is represented |
| Mensajes.RecorrerConversaciones | src/services/mensajes.ts:76-82 | the `forEach` loop with its `get`/`set` fills the map as the fold `Conversaciones` does |
| Mensajes.MensajeStore.ObtenerUltimosMensajes | src/services/mensajes.ts:71-87 | filtering, the `forEach` loop and the sort compute `Ultimos` |
| Documentos.Usuario.constructor | src/types/index.ts:1-21 | a user with the given id, name, email and documents; the expiry dates repeat no document type, as an object's keys cannot |
| Documentos.VerificarRUT | src/services/documentos.ts:10-17 | passes exactly at length 10, so a RUT number never passes the NIT check |
| Documentos.VerificarRegistroDIAN | src/services/documentos.ts:20-27 | passes exactly at length 9 |
| Documentos.VerificarINVIMA | src/services/documentos.ts:30-37 | passes exactly for "RSAD" followed by anything, so an INVIMA number never passes the ICA check |
| Documentos.VerificarICA | src/services/documentos.ts:40-47 | passes exactly for "ICA" followed by anything; a passing number has at least three characters and starts with 'I' |
| Documentos.Validar | src/services/documentos.ts:100-115 | RUT passes exactly at length 10 and DIAN at length 9; INVIMA passes exactly with prefix "RSAD" and ICA with prefix "ICA"; a passing number is non-empty |
| Documentos.ParseIdentificadorRoundTrip | src/services/documentos.ts:54 | `<tag>-<id>-<time>` parses back to the id and the time, for negative ids as well |
| Documentos.FacturaElectronica | src/services/documentos.ts:50-57 | an invoice number starts with `FE-` and parses back to its order id and time |
| Documentos.CertificadoOrigen | src/services/documentos.ts:60-67 | a certificate of origin starts with `CO-` and parses back to its product id and time |
| Documentos.FacturaNoEsCertificado | src/services/documentos.ts:54-64 | no invoice number equals a certificate number |
| Documentos.Fecha | src/services/documentos.ts:76 | reading an expiry date finds the entry with that key, or reports that there is none |
| Documentos.AsignarFechaLee | src/services/documentos.ts:129 | after writing a key, that key reads the new date and every other key reads what it read before |
| Documentos.AsignarFechaUnica | src/services/documentos.ts:129 | writing keeps the keys unique: a new key is added at the end, and an existing key is overwritten in place |
| Documentos.Registrar | src/services/documentos.ts:119-129 | the new record sets the number and the expiry date of the type and creates missing containers; every other type's number and date are unchanged |
| Documentos.ActualizarDocumento | src/services/documentos.ts:94-132 | returns the validator's verdict. On false the user is unchanged; on true the user's documents become the registered record; expiry dates that repeat no document type still repeat none afterwards |
| Documentos.RegistrarUnica | src/services/documentos.ts:120-129 | registering a document keeps each document type at most once among the expiry dates |
| Documentos.SimularIntegracionVUCE | src/services/documentos.ts:135-151 | false without documents; otherwise true exactly when the RUT and DIAN numbers and their expiry dates are all non-empty |
| Documentos.SimularIntegracionMUISCA | src/services/documentos.ts:154-170 | the same check as VUCE |
| Documentos.RegistroHabilitaVUCE | src/services/documentos.ts:125-146 | registering a valid RUT and a valid DIAN, each with a non-empty date, makes the VUCE check pass |
| Documentos.PorVencer | src/services/documentos.ts:76-88 | exactly the entries whose date is non-empty and lies within 1..15 remaining days; read back as (type, date) pairs they are the date list filtered by that test, so they keep the list's order and multiplicities and form a subsequence of it |
| Documentos.VerificarDocumentosProximosVencer | src/services/documentos.ts:70-91 | the empty list when there are no documents or dates; otherwise the loop computes `PorVencer` |
| Carrito.TasaIVA | src/components/CarritoCompras.tsx:71 | the product's VAT rate when it is present and non-zero, else 19 |
| Carrito.TasaRetencion | src/components/CarritoCompras.tsx:78 | the product's withholding rate when it is present and non-zero, else 4 |
| Carrito.CalcularIVA | src/components/CarritoCompras.tsx:69-74 | with no tax data anywhere the VAT is 19 % of the subtotal; with no negative price or rate it is not negative |
| Carrito.CalcularRetencion | src/components/CarritoCompras.tsx:76-81 | with no tax data anywhere the withholding is 4 % of the subtotal; with no negative price or rate it is not negative |
| Carrito.CalcularCostoEnvio | src/components/CarritoCompras.tsx:83-87 | products without a shipping cost add nothing; with no negative shipping cost the sum is not negative |
| Carrito.CalcularTotal | src/components/CarritoCompras.tsx:89-95 | with no tax data anywhere the total is 115 % of the subtotal plus shipping |
| Carrito.CarritoVacio | src/components/CarritoCompras.tsx:65-95 | an empty cart gives 0 for the subtotal, VAT, withholding, shipping and total |
| Carrito.SumasConcatenadas | src/components/CarritoCompras.tsx:65-87 | each of the four reducers is additive over concatenated carts |
| Carrito.TotalConcatenado | src/components/CarritoCompras.tsx:89-95 | the total of two carts together is the sum of their totals |
| Carrito.TotalPorProducto | src/components/CarritoCompras.tsx:89-95 | subtotal + VAT − withholding + shipping equals the sum over products of price + VAT − withholding + shipping |
| Carrito.TotalEjemplo | src/components/CarritoCompras.tsx:89-95 | a 25000 product with default rates and 8000 shipping totals 36750 |
| Carrito.CrearOrdenCobraSubtotal | src/components/CarritoCompras.tsx:102 | the order created from the cart carries the subtotal as its total, with no VAT, withholding or shipping |
| Carrito.Checkout.constructor | src/components/CarritoCompras.tsx:55-57 | the dialog opens at step 0 with no order |
| Carrito.Checkout.HandleNext | src/components/CarritoCompras.tsx:97-115 | at step 0 the order is created for the cart and the buyer (`user?.id \|\| 0`), paid, stored, and the step becomes 1; a rejection leaves the step and order as they were. From any other step the step goes up by one. Pressing the button while it is enabled keeps the step in range |
| Carrito.Checkout.HandleBack | src/components/CarritoCompras.tsx:117-119 | the step goes down by one with nothing else changed, and stays in range when "Atrás" is shown |
| Carrito.Checkout.HandleFinish | src/components/CarritoCompras.tsx:121-127 | every cart product has been removed; the step is 0 and there is no order |
| Carrito.QuitarPaso | src/components/CarritoCompras.tsx:123 | removing one more id from what is left is the same as leaving out both ids |
| Carrito.NadaRestante | src/components/CarritoCompras.tsx:123 | once every product's id has been removed, nothing is left |
| ListaProductos.ProductosFiltrados | src/pages/productos/ListaProductos.tsx:44-51 | a subsequence of the catalogue. Every kept product matches the search and the type. Every catalogue product that matches both is kept, as many times as it occurs in the catalogue, and no other product occurs |
| ListaProductos.FiltradoSiYSoloSi | src/pages/productos/ListaProductos.tsx:46-49 | a product is listed exactly when it is in the catalogue, its lower-cased name or description contains the lower-cased search, and the type is "Todos" or its own |
| ListaProductos.SinFiltros | src/pages/productos/ListaProductos.tsx:46-48 | an empty search with "Todos" lists the whole catalogue, in order |
| ListaProductos.TodosSoloBusqueda | src/pages/productos/ListaProductos.tsx:48 | under "Todos" only the search decides |
| ListaProductos.TipoConcreto | src/pages/productos/ListaProductos.tsx:48 | a specific type lists only products of that type |
| Text.ToLower | src/pages/productos/ListaProductos.tsx:46-47 | `toLowerCase` keeps the length and maps each character on its own |
| Text.Includes | src/pages/productos/ListaProductos.tsx:46-47 | `includes` holds exactly when the text has the string at some position |
| Text.IncludesEmpty | src/pages/productos/ListaProductos.tsx:46-47 | every text includes the empty string |
| Text.StartsWith | src/services/documentos.ts:34 | `startsWith` holds exactly when the text is the prefix followed by something |
| Text.NatToString | src/services/documentos.ts:54 | a number renders as a non-empty string of digits |
| Text.NatToStringRoundTrip | src/services/documentos.ts:54 | reading the digits back gives the number |
| Text.NumberToStringRoundTrip | src/services/documentos.ts:54 | rendering an integer, negative ones included, and parsing it back gives the integer |
| Text.NumberToStringNoInnerDash | src/services/documentos.ts:54 | a rendered integer has a '-' at most in front, so the separators of an identifier stay apart |
| Sorting.SortBy | src/services/mensajes.ts:42 | the result is sorted by the key and is a permutation of the input |
| Sorting.InsertBySorted | src/services/mensajes.ts:42 | inserting into a sorted sequence keeps it sorted |
| Sorting.SortByMember | src/services/mensajes.ts:86 | every element of the sorted result comes from the input |
| Sorting.SortByDistinct | src/services/mensajes.ts:85-86 | sorting keeps a sequence free of two elements in the same group |
| Common.Filter | src/services/mensajes.ts:56-58 | `filter` keeps exactly the elements that pass, in order, as a subsequence; each passing element occurs as often as in the input, and no failing one occurs |
| Common.FilterAll | src/pages/productos/ListaProductos.tsx:45-50 | a predicate every element passes keeps the whole sequence |
| Common.FilterExt | src/services/mensajes.ts:38-41 | two predicates that agree on every element filter alike |
| Common.FilterAppend | src/services/mensajes.ts:56-58 | filtering a sequence extended by one element filters the old part, then tests the new element |

## Left out

- Asynchrony: every `setTimeout` and `Promise` wrapper is dropped, and each service call is a synchronous method or function. The `throw` inside the timer callback of `procesarPago` (src/services/ordenes.ts:63-65) cannot reject the returned promise, so `ProcesarPago` has no error path.
- Clocks: every `Date.now()` and `new Date()` reading is a parameter (`ahora`, `fecha`, `tPago`, `tFactura`, `tCertificado`). ISO date strings are integers. In the expiry check, `Math.ceil` over the date difference is a caller-supplied `diasRestantes` function returning `None` for a string that is not a date.
- Numbers: prices, rates and totals are exact `real`s. JavaScript floating-point rounding and `NaN` are not modelled, and neither are ids beyond 2^53.
- Text: `toLowerCase` is modelled on ASCII letters only; Unicode case mapping is not part of this model.
- `console.log` and `console.error` calls (the e-mail notice in `enviar`, the error logs) are left out.
- Product store lookups: `crear` and `cancelar` call `ProductService.obtenerPorId` and `ProductService.actualizar`, which src/services/productos.ts does not define. The model binds them to `obtenerProductoPorId` (first match) and `actualizarProducto` (merge at the first match).
- The `crear` and `cancelar` loops are split out as `Ordenes.ReservarEnCatalogo` and `Ordenes.ReponerEnCatalogo`, which `Crear` and `Cancelar` call. Their bodies are `Ordenes.ReservarItem` and `Ordenes.ReponerItem`. The `forEach` of `obtenerUltimosMensajes` is split out as `Mensajes.RecorrerConversaciones`. The statements and their order are unchanged.
- Object identity: the source mutates the very order and message objects its queries hand out (`orden.estado = …`, `mensaje.leido = true`). The model stores records by value, so a caller's copy obtained earlier does not change.
- Ordenes.OrdenStore.Crear: the commercial documents (`facturaElectronica` from the new id, `certificadoOrigen` from the first line's product) are built from the clock readings passed in and stored on the order. Their format is stated by the contracts of `Documentos.FacturaElectronica` and `Documentos.CertificadoOrigen`.
- `obtenerOrdenesPorUsuario` and `actualizarEstadoOrden` of the quick-checkout service (src/services/ordenes.ts:72-89) resolve constants (`[]`, `true`) and touch no state, so they are not modelled.
- Carrito.Checkout.HandleNext: `crearOrden` and `procesarPago` never reject in the source. A rejection is the parameter `fallo`. The `loading` flag is not modelled.
- Carrito.Checkout.HandleFinish: the parent component's `onRemoveFromCart` is not part of this model. It is modelled as removing every product with that id from the cart the dialog shows. `onClose` only closes the dialog and is left out.
- Cart rates: the `Product` type (src/types/index.ts:104-142) has no `impuestos` and a required `costoEnvio`. The cart reads both with `?.` and `||`, as the `Producto` type (src/types/index.ts:52-71) declares them. The model makes both optional on `Product`.
- Text length: a `string` is a sequence of code points, while JavaScript's `.length` counts UTF-16 code units. For a number with characters outside the Basic Multilingual Plane, `VerificarRUT` and `VerificarRegistroDIAN` count fewer characters than the source does.
- Sorting.SortBy: stability, which `Array.prototype.sort` guarantees, is not stated; the model states only that the result is sorted and a permutation of the input.
- Rendering: all JSX/MUI rendering, the address and payment forms of the checkout, and the product loading of the catalogue page.

### Behaviour of the code worth noting
- `actualizarEstado` overwrites the state with no transition check, so any state can follow any other.
- A failed `crear` does not roll back: the stock taken by the items before the failing one stays taken (`Ordenes.ReservarFallo`).
- `crear` stores the order with the plain Σ `precio * cantidad`; no VAT, withholding or shipping is computed for orders. `crearOrden` likewise charges the plain sum of prices (`Carrito.CrearOrdenCobraSubtotal`).
- `procesarPago` does not look at the order's state: any order gets a paid copy.
- `cancelar` reports a missing or non-pending order by returning false; it raises no error.
- A rate of 0 counts as missing, because the source defaults with `||`, so a 0 % VAT becomes 19 %.
