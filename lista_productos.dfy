/** The catalogue page (`ListaProductos`): a case-insensitive search combined with a type filter. */
module ListaProductos {
  import opened Common
  import opened Text
  import opened Productos

  /** The search text occurs, ignoring case, in the product's name or description. */
  predicate CoincideBusqueda(p: Product, busqueda: string)
  {
    Includes(ToLower(p.nombre), ToLower(busqueda)) || Includes(ToLower(p.descripcion), ToLower(busqueda))
  }

  /** The type filter is "Todos" or names the product's type. */
  predicate CoincideTipo(p: Product, tipoFiltro: string)
  {
    tipoFiltro == "Todos" || p.tipo == tipoFiltro
  }

  /** The predicate `productosFiltrados` passes to `filter`. */
  function Coincide(busqueda: string, tipoFiltro: string): Product -> bool
  {
    (p: Product) => CoincideBusqueda(p, busqueda) && CoincideTipo(p, tipoFiltro)
  }

  /** `productosFiltrados`: the products that match both the search and the type filter, in catalogue order. */
  function ProductosFiltrados(productos: seq<Product>, busqueda: string, tipoFiltro: string): (r: seq<Product>)
    ensures IsSubsequence(r, productos)
    ensures forall i :: 0 <= i < |r| ==> CoincideBusqueda(r[i], busqueda) && CoincideTipo(r[i], tipoFiltro)
    ensures forall i :: 0 <= i < |productos| ==>
              (CoincideBusqueda(productos[i], busqueda) && CoincideTipo(productos[i], tipoFiltro) ==> productos[i] in r)
    ensures multiset(r) <= multiset(productos)
    ensures forall p :: p in multiset(productos) ==>
              multiset(r)[p] == if CoincideBusqueda(p, busqueda) && CoincideTipo(p, tipoFiltro) then multiset(productos)[p] else 0
  {
    Filter(productos, Coincide(busqueda, tipoFiltro))
  }

  /** A product is listed exactly when it is in the catalogue and matches both filters. */
  lemma FiltradoSiYSoloSi(productos: seq<Product>, busqueda: string, tipoFiltro: string, p: Product)
    ensures p in ProductosFiltrados(productos, busqueda, tipoFiltro) <==>
      p in productos && CoincideBusqueda(p, busqueda) && CoincideTipo(p, tipoFiltro)
  {
    var r := ProductosFiltrados(productos, busqueda, tipoFiltro);
    if p in r {
      var i :| 0 <= i < |r| && r[i] == p;
      assert r[i] in productos;
    }
    if p in productos && CoincideBusqueda(p, busqueda) && CoincideTipo(p, tipoFiltro) {
      var i :| 0 <= i < |productos| && productos[i] == p;
    }
  }

  /** With an empty search and "Todos" the whole catalogue is listed. */
  lemma SinFiltros(productos: seq<Product>)
    ensures ProductosFiltrados(productos, "", "Todos") == productos
  {
    forall i | 0 <= i < |productos|
      ensures Coincide("", "Todos")(productos[i])
    {
      IncludesEmpty(ToLower(productos[i].nombre));
    }
    FilterAll(productos, Coincide("", "Todos"));
  }

  /** Under "Todos" only the search decides: the type never excludes a product. */
  lemma TodosSoloBusqueda(productos: seq<Product>, busqueda: string)
    ensures ProductosFiltrados(productos, busqueda, "Todos") == Filter(productos, (p: Product) => CoincideBusqueda(p, busqueda))
  {
    FilterExt(productos, Coincide(busqueda, "Todos"), (p: Product) => CoincideBusqueda(p, busqueda));
  }

  /** A specific type filter lists only products of that type. */
  lemma TipoConcreto(productos: seq<Product>, busqueda: string, tipoFiltro: string)
    requires tipoFiltro != "Todos"
    ensures forall p :: p in ProductosFiltrados(productos, busqueda, tipoFiltro) ==> p.tipo == tipoFiltro
  {
    forall p | p in ProductosFiltrados(productos, busqueda, tipoFiltro)
      ensures p.tipo == tipoFiltro
    {
      FiltradoSiYSoloSi(productos, busqueda, tipoFiltro, p);
    }
  }
}
