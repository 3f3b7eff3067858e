/**
 * The product catalogue (`ProductService`): a module-level array of products changed in
 * place by append, merge-update at an index and delete-by-id.
 */
module Productos {
  import opened Common

  datatype Certificaciones = Certificaciones(sanitario: bool, fiscal: bool, origen: bool)

  datatype CondicionesTransporte = CondicionesTransporte(temperatura: Option<string>, humedad: Option<string>)

  datatype Detalles = Detalles(
    origen: Option<string>,
    variedad: Option<string>,
    tueste: Option<string>,
    perfilSabor: Option<string>,
    fechaProduccion: Option<string>,
    formato: Option<string>,
    condicionesTransporte: Option<CondicionesTransporte>)

  datatype Dimensiones = Dimensiones(largo: real, ancho: real, alto: real)

  datatype MedioTransporte = Aereo | Maritimo | Terrestre

  /** Tax rates in percent, read by the cart through `logistica?.impuestos?`. */
  datatype Impuestos = Impuestos(iva: real, retencionFuente: real)

  /**
   * Logistics data. `costoEnvio` and `impuestos` may be missing at run time (the cart reads
   * them with `?.` and `||`), so both are optional here.
   */
  datatype Logistica = Logistica(
    peso: real,
    dimensiones: Dimensiones,
    medioTransporte: MedioTransporte,
    costoEnvio: Option<real>,
    impuestos: Option<Impuestos>)

  /** A catalogue entry; `cantidad` is the units in stock, dates are instants. */
  datatype Product = Product(
    id: int,
    nombre: string,
    tipo: string,
    precio: real,
    cantidad: int,
    descripcion: string,
    imagen: Option<seq<string>>,
    vendedorId: int,
    disponible: bool,
    fechaCreacion: int,
    certificaciones: Certificaciones,
    detalles: Detalles,
    logistica: Logistica)

  /** `Partial<Product>`: every top-level field may be given or left out. */
  datatype ProductPatch = ProductPatch(
    id: Option<int>,
    nombre: Option<string>,
    tipo: Option<string>,
    precio: Option<real>,
    cantidad: Option<int>,
    descripcion: Option<string>,
    imagen: Option<Option<seq<string>>>,
    vendedorId: Option<int>,
    disponible: Option<bool>,
    fechaCreacion: Option<int>,
    certificaciones: Option<Certificaciones>,
    detalles: Option<Detalles>,
    logistica: Option<Logistica>)

  function Pick<T>(given: Option<T>, kept: T): T
  {
    if given.Some? then given.value else kept
  }

  /** `{ ...p, ...patch }`: the fields given in `patch` overwrite, the others are kept. */
  function Merge(p: Product, patch: ProductPatch): Product
  {
    Product(
      Pick(patch.id, p.id),
      Pick(patch.nombre, p.nombre),
      Pick(patch.tipo, p.tipo),
      Pick(patch.precio, p.precio),
      Pick(patch.cantidad, p.cantidad),
      Pick(patch.descripcion, p.descripcion),
      Pick(patch.imagen, p.imagen),
      Pick(patch.vendedorId, p.vendedorId),
      Pick(patch.disponible, p.disponible),
      Pick(patch.fechaCreacion, p.fechaCreacion),
      Pick(patch.certificaciones, p.certificaciones),
      Pick(patch.detalles, p.detalles),
      Pick(patch.logistica, p.logistica))
  }

  /** The patch `{ cantidad: c }` that the order store sends to change stock. */
  function CantidadPatch(c: int): ProductPatch
  {
    ProductPatch(None, None, None, None, Some(c), None, None, None, None, None, None, None, None)
  }

  /** A patch with only `cantidad` changes the stock and nothing else. */
  lemma MergeCantidad(p: Product, c: int)
    ensures Merge(p, CantidadPatch(c)) == p.(cantidad := c)
  {
  }

  /** An empty patch leaves the product as it is. */
  lemma MergeNothing(p: Product)
    ensures Merge(p, ProductPatch(None, None, None, None, None, None, None, None, None, None, None, None, None)) == p
  {
  }

  /** `findIndex(p => p.id === id)`: the first position holding that id. */
  function IndexOf(ps: seq<Product>, id: int): (r: Option<nat>)
    ensures r.Some? ==> r.value < |ps| && ps[r.value].id == id
  {
    if ps == [] then None
    else if ps[0].id == id then Some(0)
    else match IndexOf(ps[1..], id)
      case None => None
      case Some(k) => Some(k + 1)
  }

  /** The position `IndexOf` finds is the first with that id, and `None` means there is none. */
  lemma {:induction false} IndexOfFirst(ps: seq<Product>, id: int)
    ensures IndexOf(ps, id).Some? ==> forall j :: 0 <= j < IndexOf(ps, id).value ==> ps[j].id != id
    ensures IndexOf(ps, id).None? ==> forall j :: 0 <= j < |ps| ==> ps[j].id != id
  {
    if ps != [] && ps[0].id != id {
      IndexOfFirst(ps[1..], id);
    }
  }

  /** Two catalogues with the same ids position by position answer every lookup alike. */
  lemma {:induction false} IndexOfSameIds(ps: seq<Product>, qs: seq<Product>, id: int)
    requires |ps| == |qs|
    requires forall j :: 0 <= j < |ps| ==> ps[j].id == qs[j].id
    ensures IndexOf(ps, id) == IndexOf(qs, id)
  {
    if ps != [] && ps[0].id != id {
      IndexOfSameIds(ps[1..], qs[1..], id);
    }
  }

  /** `productos[index] = { ...productos[index], ...patch }` at the first match, if any. */
  function Actualizar(ps: seq<Product>, id: int, patch: ProductPatch): seq<Product>
  {
    match IndexOf(ps, id)
    case None => ps
    case Some(i) => ps[i := Merge(ps[i], patch)]
  }

  /** `p => p.id !== id`. */
  function OtroId(id: int): Product -> bool
  {
    (p: Product) => p.id != id
  }

  /** `productos.filter(p => p.id !== id)`. */
  function SinProducto(ps: seq<Product>, id: int): (r: seq<Product>)
    ensures forall j :: 0 <= j < |r| ==> r[j].id != id
  {
    Filter(ps, OtroId(id))
  }

  /** The stock the order store sees for `id`: the `cantidad` of the first product with that id. */
  function StockOf(ps: seq<Product>, id: int): Option<int>
  {
    match IndexOf(ps, id)
    case None => None
    case Some(i) => Some(ps[i].cantidad)
  }

  /** The stock write the order store performs: the `cantidad` of the first product with `id` becomes `c`. */
  function FijarStock(ps: seq<Product>, id: int, c: int): seq<Product>
  {
    match IndexOf(ps, id)
    case None => ps
    case Some(i) => ps[i := ps[i].(cantidad := c)]
  }

  /** `actualizarProducto(id, { cantidad: c })` is exactly that stock write. */
  lemma ActualizarCantidad(ps: seq<Product>, id: int, c: int)
    ensures Actualizar(ps, id, CantidadPatch(c)) == FijarStock(ps, id, c)
  {
    if IndexOf(ps, id).Some? {
      MergeCantidad(ps[IndexOf(ps, id).value], c);
    }
  }

  /** Setting the stock of one product leaves every other stock alone. */
  lemma StockAfterSet(ps: seq<Product>, id: int, c: int, other: int)
    requires IndexOf(ps, id).Some?
    ensures StockOf(FijarStock(ps, id, c), other)
         == if other == id then Some(c) else StockOf(ps, other)
  {
    var qs := FijarStock(ps, id, c);
    IndexOfSameIds(ps, qs, other);
  }

  class ProductStore {
    var productos: seq<Product>

    constructor ()
      ensures productos == []
    {
      productos := [];
    }

    /** `crearProducto`: stores a copy of `producto` with a fresh id and creation date. */
    method CrearProducto(producto: Product, nuevoId: int, ahora: int) returns (nuevo: Product)
      modifies this
      ensures nuevo == producto.(id := nuevoId, fechaCreacion := ahora)
      ensures |productos| == |old(productos)| + 1
      ensures productos[..|old(productos)|] == old(productos) && productos[|old(productos)|] == nuevo
    {
      nuevo := producto.(id := nuevoId, fechaCreacion := ahora);
      productos := productos + [nuevo];
    }

    /** `obtenerProductos`: the whole catalogue; every product the lookup by id can return is in it. */
    function ObtenerProductos(): (r: seq<Product>)
      reads this
      ensures |r| == |productos| && forall i :: 0 <= i < |r| ==> r[i] == productos[i]
      ensures forall id :: ObtenerProductoPorId(id).Some? ==> ObtenerProductoPorId(id).value in r
      ensures forall i :: 0 <= i < |r| ==> ObtenerProductoPorId(r[i].id).Some?
    {
      productos
    }

    /** `obtenerProductoPorId`: `find` by id. */
    function ObtenerProductoPorId(id: int): (r: Option<Product>)
      reads this
      ensures r.None? <==> forall j :: 0 <= j < |productos| ==> productos[j].id != id
      ensures r.Some? ==> exists i :: 0 <= i < |productos| && productos[i] == r.value && r.value.id == id
                                      && forall j :: 0 <= j < i ==> productos[j].id != id
    {
      IndexOfFirst(productos, id);
      match IndexOf(productos, id)
      case None => None
      case Some(i) => Some(productos[i])
    }

    /** `actualizarProducto`: merge-update of the first product with `id`. */
    method ActualizarProducto(id: int, patch: ProductPatch) returns (r: Option<Product>)
      modifies this
      ensures productos == Actualizar(old(productos), id, patch)
      ensures r.None? <==> IndexOf(old(productos), id).None?
      ensures r.None? ==> productos == old(productos)
      ensures r.Some? ==> var i := IndexOf(old(productos), id).value;
        && r.value == Merge(old(productos)[i], patch)
        && |productos| == |old(productos)|
        && productos[i] == r.value
        && forall j :: 0 <= j < |productos| && j != i ==> productos[j] == old(productos)[j]
    {
      var index := IndexOf(productos, id);
      if index.Some? {
        var i := index.value;
        productos := productos[i := Merge(productos[i], patch)];
        r := Some(productos[i]);
      } else {
        r := None;
      }
    }

    /** `eliminarProducto`: removes every product with `id`, keeping the rest in order. */
    method EliminarProducto(id: int) returns (ok: bool)
      modifies this
      ensures ok <==> exists j :: 0 <= j < |old(productos)| && old(productos)[j].id == id
      ensures ok ==> productos == SinProducto(old(productos), id)
      ensures !ok ==> productos == old(productos)
    {
      IndexOfFirst(productos, id);
      var index := IndexOf(productos, id);
      if index.Some? {
        productos := SinProducto(productos, id);
        ok := true;
      } else {
        ok := false;
      }
    }
  }

  /** Deleting removes exactly the products with that id: every other product stays, in order. */
  lemma SinProductoKeepsOthers(ps: seq<Product>, id: int)
    ensures IsSubsequence(SinProducto(ps, id), ps)
    ensures forall j :: 0 <= j < |ps| && ps[j].id != id ==> ps[j] in SinProducto(ps, id)
    ensures forall p :: p in SinProducto(ps, id) ==> p in ps
  {
  }
}
