/**
 * The order store (`OrdenService`): a module-level array of orders and an id counter,
 * order creation with stock bookkeeping against the product catalogue, cancellation that
 * gives the stock back, state overwrite, queries and sales statistics; and the quick
 * checkout path (`crearOrden`, `procesarPago`) used by the cart.
 */
module Ordenes {
  import opened Common
  import opened Productos
  import Documentos

  datatype EstadoOrden = Pendiente | Procesando | Enviado | Entregado | Cancelado

  /** One line of a stored order: the unit price is copied from the catalogue at creation. */
  datatype LineaOrden = LineaOrden(productoId: int, cantidad: int, precio: real)

  datatype DocumentosComerciales = DocumentosComerciales(facturaElectronica: Option<string>, certificadoOrigen: Option<string>)

  datatype Orden = Orden(
    id: int,
    compradorId: int,
    productos: seq<LineaOrden>,
    total: real,
    estado: EstadoOrden,
    fechaCreacion: int,
    direccionEntrega: string,
    metodoPago: string,
    documentosComerciales: Option<DocumentosComerciales>)

  /** One requested item of `crear`. */
  datatype ItemPedido = ItemPedido(productoId: int, cantidad: int)

  /** Why `crear` throws. */
  datatype CrearError =
    | ProductoNoEncontrado(productoId: int)            // `Producto ${id} no encontrado`
    | StockInsuficiente(productoId: int, nombre: string) // `Stock insuficiente para ${nombre}`
    | SinProductos                                      // `productosOrden[0]` of an empty list

  // ---- the stock walk of `crear` ----

  /** The amount of one line: unit price times units. */
  function Importe(precio: real, cantidad: int): real
  {
    precio * cantidad as real
  }

  /** Σ precio * cantidad over the lines, folded from the left like `total +=`. */
  function SumaLineas(lineas: seq<LineaOrden>): real
  {
    if lineas == [] then 0.0
    else
      var n := |lineas| - 1;
      SumaLineas(lineas[..n]) + Importe(lineas[n].precio, lineas[n].cantidad)
  }

  /** Units of product `id` requested by `items`. */
  function CantidadPedida(items: seq<ItemPedido>, id: int): int
  {
    if items == [] then 0
    else (if items[0].productoId == id then items[0].cantidad else 0) + CantidadPedida(items[1..], id)
  }

  /** Units of product `id` held by the lines of an order. */
  function CantidadEnLineas(lineas: seq<LineaOrden>, id: int): int
  {
    if lineas == [] then 0
    else (if lineas[0].productoId == id then lineas[0].cantidad else 0) + CantidadEnLineas(lineas[1..], id)
  }

  /** Where the loop of `crear` stopped: every item reserved, or the catalogue at the first failure. */
  datatype Reserva =
    | Reservada(productos: seq<Product>, lineas: seq<LineaOrden>, total: real)
    | Rechazada(productos: seq<Product>, error: CrearError, en: nat)

  /**
   * The loop of `crear` from item `k` on: look the product up, check stock, record the
   * line, add to the total and write the reduced stock back. Nothing is undone on failure.
   */
  function ReservarDesde(ps: seq<Product>, items: seq<ItemPedido>, k: nat, lineas: seq<LineaOrden>, total: real): Reserva
    requires k <= |items|
    decreases |items| - k
  {
    if k == |items| then Reservada(ps, lineas, total)
    else
      var item := items[k];
      var encontrado := IndexOf(ps, item.productoId);
      if encontrado.None? then Rechazada(ps, ProductoNoEncontrado(item.productoId), k)
      else
        var producto := ps[encontrado.value];
        if producto.cantidad < item.cantidad then
          Rechazada(ps, StockInsuficiente(item.productoId, producto.nombre), k)
        else
          ReservarDesde(
            FijarStock(ps, item.productoId, producto.cantidad - item.cantidad),
            items,
            k + 1,
            lineas + [LineaOrden(item.productoId, item.cantidad, producto.precio)],
            total + Importe(producto.precio, item.cantidad))
  }

  /**
   * The whole loop of `crear`: on success one line per item, with the total their sum; on
   * failure it stops at one of the items.
   */
  function Reservar(ps: seq<Product>, items: seq<ItemPedido>): (r: Reserva)
    ensures r.Reservada? ==> |r.lineas| == |items| && r.total == SumaLineas(r.lineas)
    ensures r.Rechazada? ==> r.en < |items|
  {
    var r := ReservarDesde(ps, items, 0, [], 0.0);
    if r.Reservada? then
      ReservarDesdeLongitud(ps, items, 0, [], 0.0);
      ReservarDesdeTotal(ps, items, 0, [], 0.0);
      r
    else
      ReservarDesdeFalloPrefijo(ps, items, 0, [], 0.0);
      r
  }

  /** `Some(c)` shifted by `d`; a missing product stays missing. */
  function Desplazar(stock: Option<int>, d: int): Option<int>
  {
    if stock.Some? then Some(stock.value + d) else None
  }

  lemma DesplazarDos(stock: Option<int>, d: int, e: int)
    ensures Desplazar(Desplazar(stock, d), e) == Desplazar(stock, d + e)
  {
  }

  /**
   * Only stock moved between `ps` and `qs`: same products in the same places, and only the
   * first product of each id (the one lookups find) may have a different `cantidad`.
   */
  ghost predicate SoloStock(ps: seq<Product>, qs: seq<Product>)
  {
    && |qs| == |ps|
    && (forall j :: 0 <= j < |ps| ==> qs[j] == ps[j].(cantidad := qs[j].cantidad))
    && (forall j :: 0 <= j < |ps| && IndexOf(ps, ps[j].id) != Some(j) ==> qs[j] == ps[j])
  }

  lemma SoloStockIds(ps: seq<Product>, qs: seq<Product>)
    requires SoloStock(ps, qs)
    ensures forall id :: IndexOf(qs, id) == IndexOf(ps, id)
  {
    forall id ensures IndexOf(qs, id) == IndexOf(ps, id) {
      IndexOfSameIds(ps, qs, id);
    }
  }

  lemma SoloStockTrans(ps: seq<Product>, qs: seq<Product>, rs: seq<Product>)
    requires SoloStock(ps, qs) && SoloStock(qs, rs)
    ensures SoloStock(ps, rs)
  {
    SoloStockIds(ps, qs);
  }

  /** One stock write only moves stock. */
  lemma SoloStockSet(ps: seq<Product>, id: int, c: int)
    requires IndexOf(ps, id).Some?
    ensures SoloStock(ps, FijarStock(ps, id, c))
  {
  }

  /** Two catalogues that differ only in stock, with equal stock everywhere, are equal. */
  lemma SoloStockIgual(ps: seq<Product>, qs: seq<Product>)
    requires SoloStock(ps, qs)
    requires forall id :: StockOf(qs, id) == StockOf(ps, id)
    ensures qs == ps
  {
    SoloStockIds(ps, qs);
    forall j | 0 <= j < |ps|
      ensures qs[j] == ps[j]
    {
      if IndexOf(ps, ps[j].id) == Some(j) {
        assert StockOf(qs, ps[j].id) == StockOf(ps, ps[j].id);
      }
    }
  }

  /** The stock write of one step of `crear`: the item's units come off its product, if it exists. */
  function Retirar(ps: seq<Product>, item: ItemPedido): seq<Product>
  {
    match IndexOf(ps, item.productoId)
    case None => ps
    case Some(i) => FijarStock(ps, item.productoId, ps[i].cantidad - item.cantidad)
  }

  /** The stock writes of the `crear` walk from item `k` on, with the checks left out. */
  function RetirarDesde(ps: seq<Product>, items: seq<ItemPedido>, k: nat): seq<Product>
    requires k <= |items|
    decreases |items| - k
  {
    if k == |items| then ps else RetirarDesde(Retirar(ps, items[k]), items, k + 1)
  }

  /** The lines after reserving `item`. */
  function LineasTrasPaso(ps: seq<Product>, item: ItemPedido, lineas: seq<LineaOrden>): seq<LineaOrden>
    requires IndexOf(ps, item.productoId).Some?
  {
    lineas + [LineaOrden(item.productoId, item.cantidad, ps[IndexOf(ps, item.productoId).value].precio)]
  }

  /** The running total after reserving `item`. */
  function TotalTrasPaso(ps: seq<Product>, item: ItemPedido, total: real): real
    requires IndexOf(ps, item.productoId).Some?
  {
    total + Importe(ps[IndexOf(ps, item.productoId).value].precio, item.cantidad)
  }

  /** One step of the `crear` walk on an item whose product exists with enough stock. */
  lemma ReservarDesdePaso(ps: seq<Product>, items: seq<ItemPedido>, k: nat, lineas: seq<LineaOrden>, total: real)
    requires k < |items| && IndexOf(ps, items[k].productoId).Some?
    requires ps[IndexOf(ps, items[k].productoId).value].cantidad >= items[k].cantidad
    ensures ReservarDesde(ps, items, k, lineas, total)
         == ReservarDesde(Retirar(ps, items[k]), items, k + 1, LineasTrasPaso(ps, items[k], lineas),
                          TotalTrasPaso(ps, items[k], total))
  {
  }

  /** The walk stops at item `k` when its product is missing. */
  lemma ReservarDesdeNoEncontrado(ps: seq<Product>, items: seq<ItemPedido>, k: nat, lineas: seq<LineaOrden>, total: real)
    requires k < |items| && IndexOf(ps, items[k].productoId).None?
    ensures ReservarDesde(ps, items, k, lineas, total) == Rechazada(ps, ProductoNoEncontrado(items[k].productoId), k)
  {
  }

  /** The walk stops at item `k` when it asks for more units than its product has in stock. */
  lemma ReservarDesdeSinStock(ps: seq<Product>, items: seq<ItemPedido>, k: nat, lineas: seq<LineaOrden>, total: real)
    requires k < |items| && IndexOf(ps, items[k].productoId).Some?
    requires ps[IndexOf(ps, items[k].productoId).value].cantidad < items[k].cantidad
    ensures ReservarDesde(ps, items, k, lineas, total)
         == Rechazada(ps, StockInsuficiente(items[k].productoId, ps[IndexOf(ps, items[k].productoId).value].nombre), k)
  {
  }

  /** A walk that succeeds found every product, so its first step was a successful one. */
  lemma ReservarDesdeEncuentra(ps: seq<Product>, items: seq<ItemPedido>, k: nat, lineas: seq<LineaOrden>, total: real)
    requires k < |items| && ReservarDesde(ps, items, k, lineas, total).Reservada?
    ensures IndexOf(ps, items[k].productoId).Some?
    ensures ps[IndexOf(ps, items[k].productoId).value].cantidad >= items[k].cantidad
  {
  }

  /** The stock write of `crear` for a found product, a merge of `{cantidad}`, is `Retirar`. */
  lemma RetirarActualiza(ps: seq<Product>, item: ItemPedido, c: int)
    requires IndexOf(ps, item.productoId).Some?
    requires c == ps[IndexOf(ps, item.productoId).value].cantidad - item.cantidad
    ensures Actualizar(ps, item.productoId, CantidadPatch(c)) == Retirar(ps, item)
  {
    ActualizarCantidad(ps, item.productoId, c);
  }

  /** Reserving one item sets the stock of its product and leaves every other stock alone. */
  lemma RetirarStock(ps: seq<Product>, item: ItemPedido, id: int)
    requires IndexOf(ps, item.productoId).Some?
    ensures StockOf(Retirar(ps, item), id)
            == if id == item.productoId then Some(ps[IndexOf(ps, item.productoId).value].cantidad - item.cantidad)
               else StockOf(ps, id)
  {
    var c := ps[IndexOf(ps, item.productoId).value].cantidad - item.cantidad;
    assert Retirar(ps, item) == FijarStock(ps, item.productoId, c);
    StockAfterSet(ps, item.productoId, c, id);
  }

  /** Reserving one item takes its units off its own product's stock. */
  lemma RetirarDesplaza(ps: seq<Product>, item: ItemPedido, id: int)
    ensures StockOf(Retirar(ps, item), id) == Desplazar(StockOf(ps, id), -(if id == item.productoId then item.cantidad else 0))
  {
    if IndexOf(ps, item.productoId).Some? {
      RetirarStock(ps, item, id);
    }
  }

  /** Reserving one item only moves stock. */
  lemma RetirarSoloStock(ps: seq<Product>, item: ItemPedido)
    requires IndexOf(ps, item.productoId).Some?
    ensures SoloStock(ps, Retirar(ps, item))
  {
    SoloStockSet(ps, item.productoId, ps[IndexOf(ps, item.productoId).value].cantidad - item.cantidad);
  }

  /** After reserving one item every lookup finds the same position, with the same price. */
  lemma RetirarPrecio(ps: seq<Product>, item: ItemPedido, id: int)
    requires IndexOf(ps, item.productoId).Some?
    ensures IndexOf(Retirar(ps, item), id) == IndexOf(ps, id)
    ensures IndexOf(ps, id).Some? ==> Retirar(ps, item)[IndexOf(ps, id).value].precio == ps[IndexOf(ps, id).value].precio
  {
    RetirarSoloStock(ps, item);
    IndexOfSameIds(ps, Retirar(ps, item), id);
  }

  /** A successful walk records exactly one line per remaining item after the lines it started with. */
  lemma {:induction false} ReservarDesdeLongitud(ps: seq<Product>, items: seq<ItemPedido>, k: nat, lineas: seq<LineaOrden>, total: real)
    requires k <= |items| && ReservarDesde(ps, items, k, lineas, total).Reservada?
    ensures var r := ReservarDesde(ps, items, k, lineas, total);
      |r.lineas| == |lineas| + |items| - k && r.lineas[..|lineas|] == lineas
    decreases |items| - k
  {
    if k < |items| {
      ReservarDesdeEncuentra(ps, items, k, lineas, total);
      ReservarDesdePaso(ps, items, k, lineas, total);
      var lineas1 := LineasTrasPaso(ps, items[k], lineas);
      ReservarDesdeLongitud(Retirar(ps, items[k]), items, k + 1, lineas1, TotalTrasPaso(ps, items[k], total));
      var r := ReservarDesde(Retirar(ps, items[k]), items, k + 1, lineas1, TotalTrasPaso(ps, items[k], total));
      assert r.lineas[..|lineas|] == r.lineas[..|lineas1|][..|lineas|];
    }
  }

  /** The line a successful walk records for item `j`: its product, its units, the catalogue price. */
  lemma {:induction false} ReservarDesdeLinea(ps: seq<Product>, items: seq<ItemPedido>, k: nat, lineas: seq<LineaOrden>, total: real, j: nat)
    requires k <= j < |items|
    requires ReservarDesde(ps, items, k, lineas, total).Reservada?
    ensures IndexOf(ps, items[j].productoId).Some?
    ensures var r := ReservarDesde(ps, items, k, lineas, total);
      |lineas| + j - k < |r.lineas|
      && r.lineas[|lineas| + j - k] == LineaOrden(items[j].productoId, items[j].cantidad,
                                                    ps[IndexOf(ps, items[j].productoId).value].precio)
    decreases |items| - k
  {
    ReservarDesdeEncuentra(ps, items, k, lineas, total);
    ReservarDesdePaso(ps, items, k, lineas, total);
    var ps1 := Retirar(ps, items[k]);
    var lineas1 := LineasTrasPaso(ps, items[k], lineas);
    var total1 := TotalTrasPaso(ps, items[k], total);
    var r := ReservarDesde(ps1, items, k + 1, lineas1, total1);
    ReservarDesdeLongitud(ps1, items, k + 1, lineas1, total1);
    if j == k {
      assert r.lineas[|lineas|] == r.lineas[..|lineas1|][|lineas|];
    } else {
      ReservarDesdeLinea(ps1, items, k + 1, lineas1, total1, j);
      RetirarPrecio(ps, items[k], items[j].productoId);
    }
  }

  /** The running total of a successful walk is Σ precio * cantidad over its lines. */
  lemma {:induction false} ReservarDesdeTotal(ps: seq<Product>, items: seq<ItemPedido>, k: nat, lineas: seq<LineaOrden>, total: real)
    requires k <= |items| && total == SumaLineas(lineas)
    requires ReservarDesde(ps, items, k, lineas, total).Reservada?
    ensures ReservarDesde(ps, items, k, lineas, total).total == SumaLineas(ReservarDesde(ps, items, k, lineas, total).lineas)
    decreases |items| - k
  {
    if k < |items| {
      ReservarDesdeEncuentra(ps, items, k, lineas, total);
      ReservarDesdePaso(ps, items, k, lineas, total);
      var lineas1 := LineasTrasPaso(ps, items[k], lineas);
      assert lineas1[..|lineas1| - 1] == lineas;
      ReservarDesdeTotal(Retirar(ps, items[k]), items, k + 1, lineas1, TotalTrasPaso(ps, items[k], total));
    }
  }

  /** A successful walk changes nothing but stock. */
  lemma {:induction false} ReservarDesdeSoloStock(ps: seq<Product>, items: seq<ItemPedido>, k: nat, lineas: seq<LineaOrden>, total: real)
    requires k <= |items| && ReservarDesde(ps, items, k, lineas, total).Reservada?
    ensures SoloStock(ps, ReservarDesde(ps, items, k, lineas, total).productos)
    decreases |items| - k
  {
    if k < |items| {
      ReservarDesdeEncuentra(ps, items, k, lineas, total);
      ReservarDesdePaso(ps, items, k, lineas, total);
      var ps1 := Retirar(ps, items[k]);
      var lineas1 := LineasTrasPaso(ps, items[k], lineas);
      var total1 := TotalTrasPaso(ps, items[k], total);
      ReservarDesdeSoloStock(ps1, items, k + 1, lineas1, total1);
      RetirarSoloStock(ps, items[k]);
      SoloStockTrans(ps, ps1, ReservarDesde(ps1, items, k + 1, lineas1, total1).productos);
    }
  }

  /** The units requested from item `k` on: item `k`'s own, then the rest. */
  lemma CantidadPedidaPaso(items: seq<ItemPedido>, k: nat, id: int)
    requires k < |items|
    ensures CantidadPedida(items[k..], id)
         == (if items[k].productoId == id then items[k].cantidad else 0) + CantidadPedida(items[k + 1..], id)
  {
    assert items[k..][0] == items[k] && items[k..][1..] == items[k + 1..];
  }

  /** A successful walk leaves the catalogue its stock writes alone would give. */
  lemma {:induction false} ReservarDesdeRetira(ps: seq<Product>, items: seq<ItemPedido>, k: nat, lineas: seq<LineaOrden>, total: real)
    requires k <= |items| && ReservarDesde(ps, items, k, lineas, total).Reservada?
    ensures ReservarDesde(ps, items, k, lineas, total).productos == RetirarDesde(ps, items, k)
    decreases |items| - k
  {
    if k < |items| {
      ReservarDesdeEncuentra(ps, items, k, lineas, total);
      ReservarDesdePaso(ps, items, k, lineas, total);
      ReservarDesdeRetira(Retirar(ps, items[k]), items, k + 1, LineasTrasPaso(ps, items[k], lineas), TotalTrasPaso(ps, items[k], total));
    }
  }

  /** The stock writes from item `k` on lower the stock of `id` by the units the items request of it. */
  lemma {:induction false} RetirarDesdeStock(ps: seq<Product>, items: seq<ItemPedido>, k: nat, id: int)
    requires k <= |items|
    ensures StockOf(RetirarDesde(ps, items, k), id) == Desplazar(StockOf(ps, id), -CantidadPedida(items[k..], id))
    decreases |items| - k
  {
    if k < |items| {
      RetirarDesdeStock(Retirar(ps, items[k]), items, k + 1, id);
      RetirarDesplaza(ps, items[k], id);
      CantidadPedidaPaso(items, k, id);
      DesplazarDos(StockOf(ps, id), -(if items[k].productoId == id then items[k].cantidad else 0),
                   -CantidadPedida(items[k + 1..], id));
    } else {
      assert items[k..] == [];
    }
  }

  /** A product with a non-zero requested amount occurs among the items. */
  lemma {:induction false} PedidoPresente(items: seq<ItemPedido>, id: int) returns (j: nat)
    requires CantidadPedida(items, id) != 0
    ensures j < |items| && items[j].productoId == id
  {
    if items[0].productoId == id {
      j := 0;
    } else {
      var k := PedidoPresente(items[1..], id);
      j := k + 1;
    }
  }

  /**
   * No requested product ends below zero: each item is checked against the stock already
   * reduced by the earlier items.
   */
  lemma {:induction false} ReservarDesdeNoNegativo(ps: seq<Product>, items: seq<ItemPedido>, k: nat, lineas: seq<LineaOrden>, total: real, j: nat)
    requires k <= j < |items|
    requires ReservarDesde(ps, items, k, lineas, total).Reservada?
    ensures var stock := StockOf(ReservarDesde(ps, items, k, lineas, total).productos, items[j].productoId);
      stock.Some? && stock.value >= 0
    decreases |items| - k, 1
  {
    if j > k {
      ReservarDesdePaso(ps, items, k, lineas, total);
      ReservarDesdeEncuentra(ps, items, k, lineas, total);
      ReservarDesdeNoNegativo(Retirar(ps, items[k]), items, k + 1, LineasTrasPaso(ps, items[k], lineas), TotalTrasPaso(ps, items[k], total), j);
    } else {
      NoNegativoEnPaso(ps, items, k, lineas, total);
    }
  }

  /** The item the walk is at ends non-negative: later requests for it are checked too. */
  lemma {:induction false} NoNegativoEnPaso(ps: seq<Product>, items: seq<ItemPedido>, k: nat, lineas: seq<LineaOrden>, total: real)
    requires k < |items|
    requires ReservarDesde(ps, items, k, lineas, total).Reservada?
    ensures var stock := StockOf(ReservarDesde(ps, items, k, lineas, total).productos, items[k].productoId);
      stock.Some? && stock.value >= 0
    decreases |items| - k, 0
  {
    ReservarDesdeEncuentra(ps, items, k, lineas, total);
    ReservarDesdePaso(ps, items, k, lineas, total);
    var ps1 := Retirar(ps, items[k]);
    var lineas1 := LineasTrasPaso(ps, items[k], lineas);
    var total1 := TotalTrasPaso(ps, items[k], total);
    var id := items[k].productoId;
    if CantidadPedida(items[k + 1..], id) != 0 {
      var m := PedidoPresente(items[k + 1..], id);
      assert items[k + 1..][m] == items[k + 1 + m];
      ReservarDesdeNoNegativo(ps1, items, k + 1, lineas1, total1, k + 1 + m);
    } else {
      ReservarDesdeRetira(ps1, items, k + 1, lineas1, total1);
      RetirarDesdeStock(ps1, items, k + 1, id);
      RetirarStock(ps, items[k], id);
    }
  }

  /** A successful `crear` walk records one line per item, with the catalogue's price for it. */
  lemma ReservarLineas(ps: seq<Product>, items: seq<ItemPedido>)
    requires Reservar(ps, items).Reservada?
    ensures |Reservar(ps, items).lineas| == |items|
    ensures forall j :: 0 <= j < |items| ==>
      && IndexOf(ps, items[j].productoId).Some?
      && Reservar(ps, items).lineas[j] == LineaOrden(items[j].productoId, items[j].cantidad,
                                                     ps[IndexOf(ps, items[j].productoId).value].precio)
  {
    ReservarDesdeLongitud(ps, items, 0, [], 0.0);
    forall j | 0 <= j < |items|
      ensures IndexOf(ps, items[j].productoId).Some?
      ensures Reservar(ps, items).lineas[j] == LineaOrden(items[j].productoId, items[j].cantidad,
                                                          ps[IndexOf(ps, items[j].productoId).value].precio)
    {
      ReservarDesdeLinea(ps, items, 0, [], 0.0, j);
    }
  }

  /** The total of a successful `crear` walk is Σ precio * cantidad over the recorded lines. */
  lemma ReservarTotal(ps: seq<Product>, items: seq<ItemPedido>)
    requires Reservar(ps, items).Reservada?
    ensures Reservar(ps, items).total == SumaLineas(Reservar(ps, items).lineas)
  {
    ReservarDesdeTotal(ps, items, 0, [], 0.0);
  }

  /** A successful `crear` walk moves only stock: no product is added, removed, moved or otherwise edited. */
  lemma ReservarSoloStock(ps: seq<Product>, items: seq<ItemPedido>)
    requires Reservar(ps, items).Reservada?
    ensures SoloStock(ps, Reservar(ps, items).productos)
  {
    ReservarDesdeSoloStock(ps, items, 0, [], 0.0);
  }

  /** After a successful `crear` walk the stock of every product is down by exactly the units requested of it. */
  lemma ReservarStock(ps: seq<Product>, items: seq<ItemPedido>)
    requires Reservar(ps, items).Reservada?
    ensures forall id :: StockOf(Reservar(ps, items).productos, id) == Desplazar(StockOf(ps, id), -CantidadPedida(items, id))
  {
    forall id
      ensures StockOf(Reservar(ps, items).productos, id) == Desplazar(StockOf(ps, id), -CantidadPedida(items, id))
    {
      ReservarStockDe(ps, items, id);
    }
  }

  /** The stock of one product after a successful `crear` walk. */
  lemma ReservarStockDe(ps: seq<Product>, items: seq<ItemPedido>, id: int)
    requires Reservar(ps, items).Reservada?
    ensures StockOf(Reservar(ps, items).productos, id) == Desplazar(StockOf(ps, id), -CantidadPedida(items, id))
  {
    assert items[0..] == items;
    ReservarDesdeRetira(ps, items, 0, [], 0.0);
    RetirarDesdeStock(ps, items, 0, id);
  }

  /** After a successful `crear` walk no requested product has negative stock. */
  lemma ReservarNoNegativo(ps: seq<Product>, items: seq<ItemPedido>)
    requires Reservar(ps, items).Reservada?
    ensures forall j :: 0 <= j < |items| ==>
      StockOf(Reservar(ps, items).productos, items[j].productoId).Some?
      && StockOf(Reservar(ps, items).productos, items[j].productoId).value >= 0
  {
    forall j | 0 <= j < |items|
      ensures StockOf(Reservar(ps, items).productos, items[j].productoId).Some?
      ensures StockOf(Reservar(ps, items).productos, items[j].productoId).value >= 0
    {
      ReservarDesdeNoNegativo(ps, items, 0, [], 0.0, j);
    }
  }

  /** A failing walk stops inside the items, with the catalogue the successful prefix leaves. */
  lemma {:induction false} ReservarDesdeFalloPrefijo(ps: seq<Product>, items: seq<ItemPedido>, k: nat, lineas: seq<LineaOrden>, total: real)
    requires k <= |items| && ReservarDesde(ps, items, k, lineas, total).Rechazada?
    ensures var r := ReservarDesde(ps, items, k, lineas, total);
      && k <= r.en < |items|
      && ReservarDesde(ps, items[..r.en], k, lineas, total).Reservada?
      && ReservarDesde(ps, items[..r.en], k, lineas, total).productos == r.productos
    decreases |items| - k
  {
    var item := items[k];
    if IndexOf(ps, item.productoId).Some? && ps[IndexOf(ps, item.productoId).value].cantidad >= item.cantidad {
      ReservarDesdePaso(ps, items, k, lineas, total);
      var ps1 := Retirar(ps, item);
      var lineas1 := LineasTrasPaso(ps, item, lineas);
      var total1 := TotalTrasPaso(ps, item, total);
      ReservarDesdeFalloPrefijo(ps1, items, k + 1, lineas1, total1);
      var en := ReservarDesde(ps1, items, k + 1, lineas1, total1).en;
      assert items[..en][k] == item;
      ReservarDesdePaso(ps, items[..en], k, lineas, total);
    }
  }

  /** Why a failing walk stopped: the item it stopped at has no product, or more units than its stock. */
  lemma {:induction false} ReservarDesdeFalloCausa(ps: seq<Product>, items: seq<ItemPedido>, k: nat, lineas: seq<LineaOrden>, total: real)
    requires k <= |items| && ReservarDesde(ps, items, k, lineas, total).Rechazada?
    ensures var r := ReservarDesde(ps, items, k, lineas, total);
      k <= r.en < |items| &&
      match r.error
      case ProductoNoEncontrado(id) => id == items[r.en].productoId && StockOf(r.productos, id).None?
      case StockInsuficiente(id, _) => id == items[r.en].productoId && StockOf(r.productos, id).Some?
                                       && StockOf(r.productos, id).value < items[r.en].cantidad
      case SinProductos => false
    decreases |items| - k
  {
    var item := items[k];
    if IndexOf(ps, item.productoId).Some? && ps[IndexOf(ps, item.productoId).value].cantidad >= item.cantidad {
      ReservarDesdePaso(ps, items, k, lineas, total);
      ReservarDesdeFalloCausa(Retirar(ps, item), items, k + 1, LineasTrasPaso(ps, item, lineas), TotalTrasPaso(ps, item, total));
    }
  }

  /**
   * A failing `crear` walk stops at the first item whose product is missing or short of
   * stock, judged against the stock already reduced by the earlier items (so a repeated
   * product id sees its own earlier reservations), and leaves those earlier reductions in
   * place: the catalogue is exactly what the successful walk over the earlier items gives.
   */
  lemma ReservarFallo(ps: seq<Product>, items: seq<ItemPedido>)
    requires Reservar(ps, items).Rechazada?
    ensures var r := Reservar(ps, items);
      && r.en < |items|
      && Reservar(ps, items[..r.en]).Reservada?
      && Reservar(ps, items[..r.en]).productos == r.productos
      && match r.error
         case ProductoNoEncontrado(id) => id == items[r.en].productoId && StockOf(r.productos, id).None?
         case StockInsuficiente(id, _) => id == items[r.en].productoId && StockOf(r.productos, id).Some?
                                          && StockOf(r.productos, id).value < items[r.en].cantidad
         case SinProductos => false
  {
    ReservarDesdeFalloPrefijo(ps, items, 0, [], 0.0);
    ReservarDesdeFalloCausa(ps, items, 0, [], 0.0);
  }

  /** Example: ordering more than the stock of the only product fails and leaves stock as it was. */
  lemma ReservarSinStock(p: Product, c: int)
    requires p.cantidad < c
    ensures Reservar([p], [ItemPedido(p.id, c)]) == Rechazada([p], StockInsuficiente(p.id, p.nombre), 0)
  {
  }

  // ---- the stock walk of `cancelar` ----

  /** One step of `cancelar`: the line's units go back to its product, if it still exists. */
  function Reponer(ps: seq<Product>, linea: LineaOrden): seq<Product>
  {
    match IndexOf(ps, linea.productoId)
    case None => ps
    case Some(i) => FijarStock(ps, linea.productoId, ps[i].cantidad + linea.cantidad)
  }

  /** Putting one line back keeps every product where it was. */
  lemma ReponerMismasPosiciones(ps: seq<Product>, linea: LineaOrden)
    ensures |Reponer(ps, linea)| == |ps|
    ensures forall id :: IndexOf(Reponer(ps, linea), id) == IndexOf(ps, id)
  {
    forall id
      ensures IndexOf(Reponer(ps, linea), id) == IndexOf(ps, id)
    {
      IndexOfSameIds(ps, Reponer(ps, linea), id);
    }
  }

  /** The loop of `cancelar`, line by line. The catalogue keeps its size and every product its position. */
  function Restaurar(ps: seq<Product>, lineas: seq<LineaOrden>): (r: seq<Product>)
    ensures |r| == |ps|
    ensures forall id :: IndexOf(r, id) == IndexOf(ps, id)
    decreases |lineas|
  {
    if lineas == [] then ps
    else
      ReponerMismasPosiciones(ps, lineas[0]);
      Restaurar(Reponer(ps, lineas[0]), lineas[1..])
  }

  /** Restoring from line `j` on: line `j` first, then the rest. */
  lemma RestaurarPaso(ps: seq<Product>, lineas: seq<LineaOrden>, j: nat)
    requires j < |lineas|
    ensures Restaurar(ps, lineas[j..]) == Restaurar(Reponer(ps, lineas[j]), lineas[j + 1..])
  {
    assert lineas[j..][0] == lineas[j] && lineas[j..][1..] == lineas[j + 1..];
  }

  /** Cancelling changes nothing but stock. */
  lemma {:induction false} RestaurarSoloStock(ps: seq<Product>, lineas: seq<LineaOrden>)
    ensures SoloStock(ps, Restaurar(ps, lineas))
    decreases |lineas|
  {
    if lineas != [] {
      var ps1 := Reponer(ps, lineas[0]);
      if IndexOf(ps, lineas[0].productoId).Some? {
        var i := IndexOf(ps, lineas[0].productoId).value;
        SoloStockSet(ps, lineas[0].productoId, ps[i].cantidad + lineas[0].cantidad);
      }
      RestaurarSoloStock(ps1, lineas[1..]);
      SoloStockTrans(ps, ps1, Restaurar(ps, lineas));
    }
  }

  /** One step of `cancelar` adds the line's units to its product's stock and leaves the others alone. */
  lemma ReponerStock(ps: seq<Product>, linea: LineaOrden, id: int)
    ensures StockOf(Reponer(ps, linea), id)
            == Desplazar(StockOf(ps, id), if linea.productoId == id then linea.cantidad else 0)
  {
    if IndexOf(ps, linea.productoId).Some? {
      var i := IndexOf(ps, linea.productoId).value;
      StockAfterSet(ps, linea.productoId, ps[i].cantidad + linea.cantidad, id);
    }
  }

  /** Cancelling adds each line's units back to the stock of every product still in the catalogue. */
  lemma {:induction false} RestaurarStock(ps: seq<Product>, lineas: seq<LineaOrden>, id: int)
    ensures StockOf(Restaurar(ps, lineas), id) == Desplazar(StockOf(ps, id), CantidadEnLineas(lineas, id))
    decreases |lineas|
  {
    if lineas != [] {
      var ps1 := Reponer(ps, lineas[0]);
      ReponerStock(ps, lineas[0], id);
      RestaurarStock(ps1, lineas[1..], id);
      assert Restaurar(ps, lineas) == Restaurar(ps1, lineas[1..]);
      assert CantidadEnLineas(lineas, id)
          == (if lineas[0].productoId == id then lineas[0].cantidad else 0) + CantidadEnLineas(lineas[1..], id);
    }
  }

  lemma {:induction false} LineasComoItems(lineas: seq<LineaOrden>, items: seq<ItemPedido>, id: int)
    requires |lineas| == |items|
    requires forall j :: 0 <= j < |items| ==> lineas[j].productoId == items[j].productoId && lineas[j].cantidad == items[j].cantidad
    ensures CantidadEnLineas(lineas, id) == CantidadPedida(items, id)
  {
    if items != [] {
      LineasComoItems(lineas[1..], items[1..], id);
    }
  }

  /** The lines of a successful walk carry, product by product, the units the items asked for. */
  lemma ReservarCantidades(ps: seq<Product>, items: seq<ItemPedido>, id: int)
    requires Reservar(ps, items).Reservada?
    ensures CantidadEnLineas(Reservar(ps, items).lineas, id) == CantidadPedida(items, id)
  {
    ReservarLineas(ps, items);
    LineasComoItems(Reservar(ps, items).lineas, items, id);
  }

  /** The stock of one product after creating an order and cancelling it again. */
  lemma CancelarDeshaceCrearStock(ps: seq<Product>, items: seq<ItemPedido>, id: int)
    requires Reservar(ps, items).Reservada?
    ensures StockOf(Restaurar(Reservar(ps, items).productos, Reservar(ps, items).lineas), id) == StockOf(ps, id)
  {
    var r := Reservar(ps, items);
    ReservarCantidades(ps, items, id);
    ReservarStockDe(ps, items, id);
    RestaurarStock(r.productos, r.lineas, id);
  }

  /**
   * Cancelling an order right after creating it gives the catalogue back exactly as it was:
   * the stock `cancelar` restores is the stock `crear` reserved.
   */
  lemma CancelarDeshaceCrear(ps: seq<Product>, items: seq<ItemPedido>)
    requires Reservar(ps, items).Reservada?
    ensures Restaurar(Reservar(ps, items).productos, Reservar(ps, items).lineas) == ps
  {
    var r := Reservar(ps, items);
    var back := Restaurar(r.productos, r.lineas);
    ReservarDesdeSoloStock(ps, items, 0, [], 0.0);
    RestaurarSoloStock(r.productos, r.lineas);
    SoloStockTrans(ps, r.productos, back);
    forall id
      ensures StockOf(back, id) == StockOf(ps, id)
    {
      CancelarDeshaceCrearStock(ps, items, id);
    }
    SoloStockIgual(ps, back);
  }

  // ---- lookups over the stored orders ----

  /** `ordenes.find(o => o.id === id)`, as a position. */
  function IndexOfOrden(os: seq<Orden>, id: int): (r: Option<nat>)
    ensures r.Some? ==> r.value < |os| && os[r.value].id == id
    ensures r.Some? ==> forall j :: 0 <= j < r.value ==> os[j].id != id
    ensures r.None? ==> forall j :: 0 <= j < |os| ==> os[j].id != id
  {
    if os == [] then None
    else if os[0].id == id then Some(0)
    else match IndexOfOrden(os[1..], id)
      case None => None
      case Some(k) => Some(k + 1)
  }

  lemma {:induction false} IndexOfOrdenSameIds(os: seq<Orden>, qs: seq<Orden>, id: int)
    requires |os| == |qs|
    requires forall j :: 0 <= j < |os| ==> os[j].id == qs[j].id
    ensures IndexOfOrden(os, id) == IndexOfOrden(qs, id)
  {
    if os != [] && os[0].id != id {
      IndexOfOrdenSameIds(os[1..], qs[1..], id);
    }
  }

  /** The orders after `orden.estado = estado` on the first order with `id`. */
  function ConEstado(os: seq<Orden>, id: int, estado: EstadoOrden): seq<Orden>
  {
    match IndexOfOrden(os, id)
    case None => os
    case Some(i) => os[i := os[i].(estado := estado)]
  }

  /** `cancelar` goes ahead only for a stored order that is still pending. */
  predicate PuedeCancelar(os: seq<Orden>, id: int)
  {
    var i := IndexOfOrden(os, id);
    i.Some? && os[i.value].estado == Pendiente
  }

  /** After a cancellation the same order cannot be cancelled again. */
  lemma CancelarUnaVez(os: seq<Orden>, id: int)
    requires PuedeCancelar(os, id)
    ensures !PuedeCancelar(ConEstado(os, id, Cancelado), id)
  {
    IndexOfOrdenSameIds(os, ConEstado(os, id, Cancelado), id);
  }

  /** Overwriting a state is allowed from every state to every state and touches no other order. */
  lemma ConEstadoCualquiera(os: seq<Orden>, id: int, estado: EstadoOrden)
    requires IndexOfOrden(os, id).Some?
    ensures var qs := ConEstado(os, id, estado);
      && |qs| == |os|
      && IndexOfOrden(qs, id) == IndexOfOrden(os, id)
      && qs[IndexOfOrden(os, id).value] == os[IndexOfOrden(os, id).value].(estado := estado)
      && forall j :: 0 <= j < |os| && j != IndexOfOrden(os, id).value ==> qs[j] == os[j]
  {
    IndexOfOrdenSameIds(os, ConEstado(os, id, estado), id);
  }

  /** Ids strictly increase along the store. */
  ghost predicate IdsCrecientes(os: seq<Orden>)
  {
    forall i, j :: 0 <= i < j < |os| ==> os[i].id < os[j].id
  }

  /** The order `crear` stores, with its two commercial documents. */
  function NuevaOrden(id: int, compradorId: int, lineas: seq<LineaOrden>, total: real, fecha: int,
                      direccionEntrega: string, metodoPago: string, tFactura: int, tCertificado: int): Orden
    requires lineas != []
  {
    Orden(id, compradorId, lineas, total, Pendiente, fecha, direccionEntrega, metodoPago,
          Some(DocumentosComerciales(
            Some(Documentos.FacturaElectronica(id, tFactura)),
            Some(Documentos.CertificadoOrigen(lineas[0].productoId, tCertificado)))))
  }

  // ---- statistics ----

  datatype Estadisticas = Estadisticas(
    totalOrdenes: nat,
    totalVentas: real,
    promedioOrden: real,
    ordenesEstado: map<EstadoOrden, nat>)

  /** The orders statistics are computed over: a falsy buyer id (absent or 0) means all of them. */
  function Relevantes(os: seq<Orden>, compradorId: Option<int>): seq<Orden>
  {
    if compradorId.Some? && compradorId.value != 0
    then Filter(os, (o: Orden) => o.compradorId == compradorId.value)
    else os
  }

  /** `reduce((sum, o) => sum + o.total, 0)`. */
  function SumaTotales(os: seq<Orden>): real
  {
    if os == [] then 0.0 else SumaTotales(os[..|os| - 1]) + os[|os| - 1].total
  }

  /** Orders in state `e`. */
  function Contar(os: seq<Orden>, e: EstadoOrden): nat
  {
    if os == [] then 0
    else Contar(os[..|os| - 1], e) + (if os[|os| - 1].estado == e then 1 else 0)
  }

  /** `reduce((acc, o) => { acc[o.estado] = (acc[o.estado] || 0) + 1 }, {})`. */
  function ContarEstados(os: seq<Orden>): (m: map<EstadoOrden, nat>)
    ensures forall e :: e in m <==> Contar(os, e) > 0
    ensures forall e :: e in m ==> m[e] == Contar(os, e)
  {
    if os == [] then map[]
    else
      var acc := ContarEstados(os[..|os| - 1]);
      var e := os[|os| - 1].estado;
      acc[e := (if e in acc then acc[e] else 0) + 1]
  }

  /** A count read from the per-state record, 0 for a state that never occurred. */
  function ConteoDe(m: map<EstadoOrden, nat>, e: EstadoOrden): nat
  {
    if e in m then m[e] else 0
  }

  /** Every order is in exactly one state. */
  lemma {:induction false} ConteosSuman(os: seq<Orden>)
    ensures Contar(os, Pendiente) + Contar(os, Procesando) + Contar(os, Enviado)
          + Contar(os, Entregado) + Contar(os, Cancelado) == |os|
  {
    if os != [] {
      ConteosSuman(os[..|os| - 1]);
    }
  }

  /** The per-state record counts every state and accounts for every order exactly once. */
  lemma ConteosDeEstados(os: seq<Orden>)
    ensures forall e :: ConteoDe(ContarEstados(os), e) == Contar(os, e)
    ensures ConteoDe(ContarEstados(os), Pendiente) + ConteoDe(ContarEstados(os), Procesando)
          + ConteoDe(ContarEstados(os), Enviado) + ConteoDe(ContarEstados(os), Entregado)
          + ConteoDe(ContarEstados(os), Cancelado) == |os|
  {
    ConteosSuman(os);
  }

  /** `n > 0 ? suma / n : 0`. */
  function Promedio(suma: real, n: nat): real
  {
    if n > 0 then suma / n as real else 0.0
  }

  /** `x` counted `n` times. */
  function Veces(x: real, n: nat): real
  {
    x * n as real
  }

  /** The mean times the count gives the sum back. */
  lemma PromedioPorCantidad(suma: real, n: nat)
    ensures n > 0 ==> Veces(Promedio(suma, n), n) == suma
  {
  }

  /** `calcularEstadisticas`. */
  function CalcularEstadisticas(os: seq<Orden>, compradorId: Option<int>): (r: Estadisticas)
    ensures r.totalOrdenes == |Relevantes(os, compradorId)|
    ensures r.totalVentas == SumaTotales(Relevantes(os, compradorId))
    ensures r.totalOrdenes == 0 ==> r.promedioOrden == 0.0
    ensures forall e :: ConteoDe(r.ordenesEstado, e) == Contar(Relevantes(os, compradorId), e)
    ensures ConteoDe(r.ordenesEstado, Pendiente) + ConteoDe(r.ordenesEstado, Procesando)
          + ConteoDe(r.ordenesEstado, Enviado) + ConteoDe(r.ordenesEstado, Entregado)
          + ConteoDe(r.ordenesEstado, Cancelado) == r.totalOrdenes
  {
    var relevantes := Relevantes(os, compradorId);
    var totalOrdenes := |relevantes|;
    var totalVentas := SumaTotales(relevantes);
    ConteosDeEstados(relevantes);
    Estadisticas(totalOrdenes, totalVentas, Promedio(totalVentas, totalOrdenes), ContarEstados(relevantes))
  }

  /** The average order value times the number of orders is the sales total. */
  lemma EstadisticasPromedio(os: seq<Orden>, compradorId: Option<int>)
    ensures var r := CalcularEstadisticas(os, compradorId);
      r.totalOrdenes > 0 ==> Veces(r.promedioOrden, r.totalOrdenes) == r.totalVentas
  {
    var relevantes := Relevantes(os, compradorId);
    var suma, n := SumaTotales(relevantes), |relevantes|;
    PromedioPorCantidad(suma, n);
    assert CalcularEstadisticas(os, compradorId) == Estadisticas(n, suma, Promedio(suma, n), ContarEstados(relevantes));
  }

  /** With a falsy buyer id the statistics cover the whole store. */
  lemma EstadisticasGlobales(os: seq<Orden>)
    ensures CalcularEstadisticas(os, None) == CalcularEstadisticas(os, Some(0))
    ensures CalcularEstadisticas(os, None).totalOrdenes == |os|
  {
  }

  /**
   * One pass of the `crear` loop over `catalogo`: the item's product is looked up and its
   * stock checked; when both pass, the stock is lowered and the order line returned.
   */
  method ReservarItem(catalogo: ProductStore, item: ItemPedido) returns (r: Result<LineaOrden, CrearError>)
    modifies catalogo
    ensures var ps := old(catalogo.productos);
      var idx := IndexOf(ps, item.productoId);
      if idx.None? then
        r == Err(ProductoNoEncontrado(item.productoId)) && catalogo.productos == ps
      else if ps[idx.value].cantidad < item.cantidad then
        r == Err(StockInsuficiente(item.productoId, ps[idx.value].nombre)) && catalogo.productos == ps
      else
        r == Ok(LineaOrden(item.productoId, item.cantidad, ps[idx.value].precio)) && catalogo.productos == Retirar(ps, item)
  {
    ghost var antes := catalogo.productos;
    var producto := catalogo.ObtenerProductoPorId(item.productoId);
    if producto.None? {
      return Err(ProductoNoEncontrado(item.productoId));
    }
    assert producto.value == antes[IndexOf(antes, item.productoId).value];
    if producto.value.cantidad < item.cantidad {
      return Err(StockInsuficiente(item.productoId, producto.value.nombre));
    }
    var _ := catalogo.ActualizarProducto(item.productoId, CantidadPatch(producto.value.cantidad - item.cantidad));
    RetirarActualiza(antes, item, producto.value.cantidad - item.cantidad);
    r := Ok(LineaOrden(item.productoId, item.cantidad, producto.value.precio));
  }

  /**
   * The loop of `crear` over `catalogo`: each item is reserved in turn and its line and amount
   * recorded; the first failure returns at once, keeping the stock already lowered.
   */
  method ReservarEnCatalogo(catalogo: ProductStore, items: seq<ItemPedido>)
    returns (r: Result<(seq<LineaOrden>, real), CrearError>)
    modifies catalogo
    ensures var res := Reservar(old(catalogo.productos), items);
      && catalogo.productos == res.productos
      && (if res.Rechazada? then r == Err(res.error)
          else r == Ok((res.lineas, res.total)) && |res.lineas| == |items|)
  {
    ghost var res := Reservar(catalogo.productos, items);
    var total := 0.0;
    var productosOrden: seq<LineaOrden> := [];
    var i := 0;
    while i < |items|
      invariant 0 <= i <= |items|
      invariant |productosOrden| == i
      invariant res == ReservarDesde(catalogo.productos, items, i, productosOrden, total)
    {
      var item := items[i];
      ghost var antes := catalogo.productos;
      var linea := ReservarItem(catalogo, item);
      if linea.Err? {
        if IndexOf(antes, item.productoId).None? {
          ReservarDesdeNoEncontrado(antes, items, i, productosOrden, total);
        } else {
          ReservarDesdeSinStock(antes, items, i, productosOrden, total);
        }
        return Err(linea.error);
      }
      ReservarDesdePaso(antes, items, i, productosOrden, total);
      assert productosOrden + [linea.value] == LineasTrasPaso(antes, item, productosOrden);
      assert total + Importe(linea.value.precio, item.cantidad) == TotalTrasPaso(antes, item, total);
      productosOrden := productosOrden + [linea.value];
      total := total + Importe(linea.value.precio, item.cantidad);
      i := i + 1;
    }
    r := Ok((productosOrden, total));
  }

  /** One turn of the loop of `cancelar`: the line's units go back to its product, if it still exists. */
  method ReponerItem(catalogo: ProductStore, item: LineaOrden)
    modifies catalogo
    ensures catalogo.productos == Reponer(old(catalogo.productos), item)
  {
    ghost var antes := catalogo.productos;
    var producto := catalogo.ObtenerProductoPorId(item.productoId);
    if producto.Some? {
      assert producto.value == antes[IndexOf(antes, item.productoId).value];
      var _ := catalogo.ActualizarProducto(item.productoId, CantidadPatch(producto.value.cantidad + item.cantidad));
      ActualizarCantidad(antes, item.productoId, producto.value.cantidad + item.cantidad);
    }
  }

  /** The loop of `cancelar` over `catalogo`: each line's units go back to its product, if it still exists. */
  method ReponerEnCatalogo(catalogo: ProductStore, lineas: seq<LineaOrden>)
    modifies catalogo
    ensures catalogo.productos == Restaurar(old(catalogo.productos), lineas)
  {
    var j := 0;
    while j < |lineas|
      invariant 0 <= j <= |lineas|
      invariant Restaurar(old(catalogo.productos), lineas) == Restaurar(catalogo.productos, lineas[j..])
    {
      RestaurarPaso(catalogo.productos, lineas, j);
      ReponerItem(catalogo, lineas[j]);
      j := j + 1;
    }
  }

  // ---- the store ----

  class OrdenStore {
    var ordenes: seq<Orden>
    var lastId: int

    /** Ids are handed out by `++lastId`, so they increase along the store and never pass `lastId`. */
    ghost predicate Valid()
      reads this
    {
      IdsCrecientes(ordenes) && forall j :: 0 <= j < |ordenes| ==> ordenes[j].id <= lastId
    }

    constructor ()
      ensures Valid() && ordenes == [] && lastId == 0
    {
      ordenes := [];
      lastId := 0;
    }

    /**
     * `crear`: reserves stock item by item in `catalogo`, then numbers the order with
     * `++lastId`, attaches its invoice and certificate of origin and appends it.
     * `fecha`, `tFactura` and `tCertificado` are the three clock readings.
     */
    method Crear(compradorId: int, items: seq<ItemPedido>, direccionEntrega: string, metodoPago: string,
                 fecha: int, tFactura: int, tCertificado: int, catalogo: ProductStore)
      returns (r: Result<Orden, CrearError>)
      requires Valid()
      modifies this, catalogo
      ensures Valid()
      ensures catalogo.productos == Reservar(old(catalogo.productos), items).productos
      ensures Reservar(old(catalogo.productos), items).Reservada? ==> |Reservar(old(catalogo.productos), items).lineas| == |items|
      ensures var res := Reservar(old(catalogo.productos), items);
        if res.Rechazada? then
          r == Err(res.error) && ordenes == old(ordenes) && lastId == old(lastId)
        else if items == [] then
          r == Err(SinProductos) && ordenes == old(ordenes) && lastId == old(lastId) + 1
        else
          && lastId == old(lastId) + 1
          && r == Ok(NuevaOrden(lastId, compradorId, res.lineas, res.total, fecha, direccionEntrega, metodoPago, tFactura, tCertificado))
          && ordenes == old(ordenes) + [r.value]
    {
      var reserva := ReservarEnCatalogo(catalogo, items);
      if reserva.Err? {
        return Err(reserva.error);
      }
      var (productosOrden, total) := reserva.value;
      lastId := lastId + 1;
      var id := lastId;
      if |productosOrden| == 0 {
        return Err(SinProductos);
      }
      var nuevaOrden := NuevaOrden(id, compradorId, productosOrden, total, fecha, direccionEntrega, metodoPago, tFactura, tCertificado);
      ordenes := ordenes + [nuevaOrden];
      r := Ok(nuevaOrden);
    }

    /** `obtenerPorId`. */
    function ObtenerPorId(id: int): (r: Option<Orden>)
      reads this
      ensures r.None? <==> forall j :: 0 <= j < |ordenes| ==> ordenes[j].id != id
      ensures r.Some? ==> exists i :: 0 <= i < |ordenes| && ordenes[i] == r.value && r.value.id == id
                                      && forall j :: 0 <= j < i ==> ordenes[j].id != id
    {
      match IndexOfOrden(ordenes, id)
      case None => None
      case Some(i) => Some(ordenes[i])
    }

    /** `obtenerPorComprador`: the buyer's orders, in store order. */
    function ObtenerPorComprador(compradorId: int): (r: seq<Orden>)
      reads this
      ensures IsSubsequence(r, ordenes)
      ensures forall j :: 0 <= j < |r| ==> r[j].compradorId == compradorId
      ensures forall j :: 0 <= j < |ordenes| && ordenes[j].compradorId == compradorId ==> ordenes[j] in r
    {
      Filter(ordenes, (o: Orden) => o.compradorId == compradorId)
    }

    /** `obtenerPorEstado`: the orders in one state, in store order. */
    function ObtenerPorEstado(estado: EstadoOrden): (r: seq<Orden>)
      reads this
      ensures IsSubsequence(r, ordenes)
      ensures forall j :: 0 <= j < |r| ==> r[j].estado == estado
      ensures forall j :: 0 <= j < |ordenes| && ordenes[j].estado == estado ==> ordenes[j] in r
    {
      Filter(ordenes, (o: Orden) => o.estado == estado)
    }

    /** `actualizarEstado`: overwrites the state of the order with `id`, whatever it was. */
    method ActualizarEstado(id: int, estado: EstadoOrden) returns (ok: bool)
      requires Valid()
      modifies this
      ensures Valid() && lastId == old(lastId)
      ensures ok <==> IndexOfOrden(old(ordenes), id).Some?
      ensures ordenes == ConEstado(old(ordenes), id, estado)
    {
      var i := IndexOfOrden(ordenes, id);
      if i.None? {
        return false;
      }
      ordenes := ordenes[i.value := ordenes[i.value].(estado := estado)];
      return true;
    }

    /** `cancelar`: only a pending order; gives its units back to the catalogue and marks it cancelled. */
    method Cancelar(id: int, catalogo: ProductStore) returns (ok: bool)
      requires Valid()
      modifies this, catalogo
      ensures Valid() && lastId == old(lastId)
      ensures ok == PuedeCancelar(old(ordenes), id)
      ensures !ok ==> ordenes == old(ordenes) && catalogo.productos == old(catalogo.productos)
      ensures ok ==>
        && ordenes == ConEstado(old(ordenes), id, Cancelado)
        && catalogo.productos == Restaurar(old(catalogo.productos), old(ordenes)[IndexOfOrden(old(ordenes), id).value].productos)
    {
      var index := IndexOfOrden(ordenes, id);
      if index.None? || ordenes[index.value].estado != Pendiente {
        return false;
      }
      var orden := ordenes[index.value];
      ReponerEnCatalogo(catalogo, orden.productos);
      ordenes := ordenes[index.value := orden.(estado := Cancelado)];
      return true;
    }

    /** `calcularEstadisticas` over the stored orders. */
    function Estadisticas(compradorId: Option<int>): (r: Estadisticas)
      reads this
      ensures r.totalOrdenes == |Relevantes(ordenes, compradorId)|
      ensures compradorId.None? || compradorId == Some(0) ==> r.totalOrdenes == |ordenes|
    {
      CalcularEstadisticas(ordenes, compradorId)
    }
  }

  // ---- quick checkout: crearOrden / procesarPago ----

  datatype EstadoCompra = CompraPendiente | Pagada | Enviada | Entregada

  datatype LineaCompra = LineaCompra(producto: Product, cantidad: int)

  /** `OrdenCompra`: the record the cart builds and pays; it is not stored. */
  datatype OrdenCompra = OrdenCompra(
    id: int,
    productos: seq<LineaCompra>,
    total: real,
    compradorId: int,
    estado: EstadoCompra,
    fechaCreacion: int,
    numeroFactura: Option<string>)

  /**
   * `productos.reduce((sum, p) => sum + p.precio, 0)`. With no negative price the sum is
   * non-negative and at least every single price.
   */
  function SumaPrecios(productos: seq<Product>): (r: real)
    ensures (forall i :: 0 <= i < |productos| ==> productos[i].precio >= 0.0) ==>
              r >= 0.0 && forall i :: 0 <= i < |productos| ==> productos[i].precio <= r
  {
    if productos == [] then 0.0
    else SumaPrecios(productos[..|productos| - 1]) + productos[|productos| - 1].precio
  }

  /** Σ precio * cantidad over the lines of a checkout order. */
  function ImporteLineas(lineas: seq<LineaCompra>): real
  {
    if lineas == [] then 0.0
    else ImporteLineas(lineas[..|lineas| - 1]) + Importe(lineas[|lineas| - 1].producto.precio, lineas[|lineas| - 1].cantidad)
  }

  /**
   * `crearOrden`: one line of quantity 1 per cart product, total = sum of prices, pending.
   * `ahora` is `Date.now()` (the id), `fecha` the creation instant.
   */
  function CrearOrden(productos: seq<Product>, compradorId: int, ahora: int, fecha: int): (r: OrdenCompra)
    ensures r.id == ahora && r.compradorId == compradorId && r.fechaCreacion == fecha
    ensures r.estado == CompraPendiente && r.numeroFactura == None
    ensures |r.productos| == |productos|
    ensures forall j :: 0 <= j < |productos| ==> r.productos[j] == LineaCompra(productos[j], 1)
    ensures r.total == ImporteLineas(r.productos)
  {
    var lineas := seq(|productos|, j requires 0 <= j < |productos| => LineaCompra(productos[j], 1));
    ImporteUnitario(productos, lineas);
    OrdenCompra(ahora, lineas, SumaPrecios(productos), compradorId, CompraPendiente, fecha, None)
  }

  lemma {:induction false} ImporteUnitario(productos: seq<Product>, lineas: seq<LineaCompra>)
    requires |lineas| == |productos|
    requires forall j :: 0 <= j < |productos| ==> lineas[j] == LineaCompra(productos[j], 1)
    ensures ImporteLineas(lineas) == SumaPrecios(productos)
  {
    if productos != [] {
      var n := |productos| - 1;
      ImporteUnitario(productos[..n], lineas[..n]);
    }
  }

  /**
   * `procesarPago`: the same order, marked paid, carrying an electronic-invoice number for
   * its id issued at clock reading `ahora`.
   */
  function ProcesarPago(orden: OrdenCompra, ahora: int): (r: OrdenCompra)
    ensures r.estado == Pagada && r.numeroFactura.Some?
    ensures Documentos.ParseIdentificador("FE", r.numeroFactura.value) == Some((orden.id, ahora))
    ensures r.(estado := orden.estado, numeroFactura := orden.numeroFactura) == orden
  {
    orden.(estado := Pagada, numeroFactura := Some(Documentos.FacturaElectronica(orden.id, ahora)))
  }
}
