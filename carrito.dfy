/**
 * The shopping cart (`CarritoCompras`): the price breakdown of the products in the cart and
 * the three-step checkout (shipping address, summary and payment, confirmation).
 */
module Carrito {
  import opened Common
  import opened Productos
  import opened Ordenes

  // ---- price breakdown ----

  /** `precio * (tasa / 100)`. */
  function Porcentaje(precio: real, tasa: real): real
  {
    precio * (tasa / 100.0)
  }

  /** `producto.logistica?.impuestos?.iva || 19`: a missing or zero rate counts as 19 percent. */
  function TasaIVA(p: Product): (tasa: real)
    ensures tasa != 0.0
    ensures p.logistica.impuestos.Some? && p.logistica.impuestos.value.iva != 0.0 ==> tasa == p.logistica.impuestos.value.iva
    ensures p.logistica.impuestos.None? || p.logistica.impuestos.value.iva == 0.0 ==> tasa == 19.0
  {
    if p.logistica.impuestos.Some? && p.logistica.impuestos.value.iva != 0.0 then p.logistica.impuestos.value.iva
    else 19.0
  }

  /** `producto.logistica?.impuestos?.retencionFuente || 4`: a missing or zero rate counts as 4 percent. */
  function TasaRetencion(p: Product): (tasa: real)
    ensures tasa != 0.0
    ensures p.logistica.impuestos.Some? && p.logistica.impuestos.value.retencionFuente != 0.0 ==> tasa == p.logistica.impuestos.value.retencionFuente
    ensures p.logistica.impuestos.None? || p.logistica.impuestos.value.retencionFuente == 0.0 ==> tasa == 4.0
  {
    if p.logistica.impuestos.Some? && p.logistica.impuestos.value.retencionFuente != 0.0 then p.logistica.impuestos.value.retencionFuente
    else 4.0
  }

  /** `producto.logistica?.costoEnvio || 0`. */
  function Envio(p: Product): real
  {
    if p.logistica.costoEnvio.Some? then p.logistica.costoEnvio.value else 0.0
  }

  /**
   * `calcularIVA`: Σ precio * iva / 100, folded from the left. With no tax data anywhere it
   * is 19 percent of the subtotal; with no negative price or rate it is not negative.
   */
  function CalcularIVA(ps: seq<Product>): (r: real)
    ensures (forall i :: 0 <= i < |ps| ==> TasaIVA(ps[i]) == 19.0) ==> r == Porcentaje(SumaPrecios(ps), 19.0)
    ensures (forall i :: 0 <= i < |ps| ==> ps[i].precio >= 0.0 && TasaIVA(ps[i]) >= 0.0) ==> r >= 0.0
  {
    if ps == [] then 0.0
    else CalcularIVA(ps[..|ps| - 1]) + Porcentaje(ps[|ps| - 1].precio, TasaIVA(ps[|ps| - 1]))
  }

  /**
   * `calcularRetencion`: Σ precio * retencion / 100, folded from the left. With no tax data
   * anywhere it is 4 percent of the subtotal; with no negative price or rate it is not negative.
   */
  function CalcularRetencion(ps: seq<Product>): (r: real)
    ensures (forall i :: 0 <= i < |ps| ==> TasaRetencion(ps[i]) == 4.0) ==> r == Porcentaje(SumaPrecios(ps), 4.0)
    ensures (forall i :: 0 <= i < |ps| ==> ps[i].precio >= 0.0 && TasaRetencion(ps[i]) >= 0.0) ==> r >= 0.0
  {
    if ps == [] then 0.0
    else CalcularRetencion(ps[..|ps| - 1]) + Porcentaje(ps[|ps| - 1].precio, TasaRetencion(ps[|ps| - 1]))
  }

  /**
   * `calcularCostoEnvio`: Σ costoEnvio, folded from the left. Products without a shipping cost
   * add nothing; with no negative shipping cost the sum is not negative.
   */
  function CalcularCostoEnvio(ps: seq<Product>): (r: real)
    ensures (forall i :: 0 <= i < |ps| ==> ps[i].logistica.costoEnvio.None?) ==> r == 0.0
    ensures (forall i :: 0 <= i < |ps| ==> Envio(ps[i]) >= 0.0) ==> r >= 0.0
  {
    if ps == [] then 0.0
    else CalcularCostoEnvio(ps[..|ps| - 1]) + Envio(ps[|ps| - 1])
  }

  /**
   * `calcularTotal`; the subtotal is the same sum of prices `crearOrden` charges. With no tax
   * data anywhere the default rates add 19 percent and take 4 percent: 115 percent of the
   * subtotal, plus shipping.
   */
  function CalcularTotal(ps: seq<Product>): (r: real)
    ensures (forall i :: 0 <= i < |ps| ==> ps[i].logistica.impuestos.None?) ==>
              r == Porcentaje(SumaPrecios(ps), 115.0) + CalcularCostoEnvio(ps)
  {
    SumaPrecios(ps) + CalcularIVA(ps) - CalcularRetencion(ps) + CalcularCostoEnvio(ps)
  }

  /** What one product adds to the total: price, plus VAT, minus withholding, plus shipping. */
  function PrecioFinal(p: Product): real
  {
    p.precio + Porcentaje(p.precio, TasaIVA(p)) - Porcentaje(p.precio, TasaRetencion(p)) + Envio(p)
  }

  /** Σ PrecioFinal, product by product from the front. */
  function SumaPreciosFinales(ps: seq<Product>): real
  {
    if ps == [] then 0.0 else PrecioFinal(ps[0]) + SumaPreciosFinales(ps[1..])
  }

  /** The four folds split over a concatenation. */
  lemma {:induction false} SumasConcatenadas(a: seq<Product>, b: seq<Product>)
    ensures SumaPrecios(a + b) == SumaPrecios(a) + SumaPrecios(b)
    ensures CalcularIVA(a + b) == CalcularIVA(a) + CalcularIVA(b)
    ensures CalcularRetencion(a + b) == CalcularRetencion(a) + CalcularRetencion(b)
    ensures CalcularCostoEnvio(a + b) == CalcularCostoEnvio(a) + CalcularCostoEnvio(b)
    decreases |b|
  {
    if b == [] {
      assert a + b == a;
    } else {
      var n := |b| - 1;
      assert (a + b)[..|a + b| - 1] == a + b[..n];
      assert (a + b)[|a + b| - 1] == b[n];
      SumasConcatenadas(a, b[..n]);
    }
  }

  /** The total of the cart is additive: two carts together cost what they cost apart. */
  lemma TotalConcatenado(a: seq<Product>, b: seq<Product>)
    ensures CalcularTotal(a + b) == CalcularTotal(a) + CalcularTotal(b)
  {
    SumasConcatenadas(a, b);
  }

  /** The total is the sum, product by product, of price plus VAT minus withholding plus shipping. */
  lemma {:induction false} TotalPorProducto(ps: seq<Product>)
    ensures CalcularTotal(ps) == SumaPreciosFinales(ps)
  {
    if ps != [] {
      TotalPorProducto(ps[1..]);
      assert ps == [ps[0]] + ps[1..];
      SumasConcatenadas([ps[0]], ps[1..]);
      assert [ps[0]][..0] == [];
    }
  }

  /** An empty cart costs nothing, in every part of the breakdown. */
  lemma CarritoVacio()
    ensures SumaPrecios([]) == 0.0 && CalcularIVA([]) == 0.0 && CalcularRetencion([]) == 0.0
    ensures CalcularCostoEnvio([]) == 0.0 && CalcularTotal([]) == 0.0
  {
  }

  /** One product at 25000 with no tax data and 8000 shipping: 25000 + 4750 - 1000 + 8000. */
  lemma TotalEjemplo(p: Product)
    requires p.precio == 25000.0 && p.logistica.impuestos.None? && p.logistica.costoEnvio == Some(8000.0)
    ensures CalcularTotal([p]) == 36750.0
  {
    assert [p][..0] == [];
    assert TasaIVA(p) == 19.0 && TasaRetencion(p) == 4.0 && Envio(p) == 8000.0;
    assert SumaPrecios([p]) == 25000.0;
    assert CalcularIVA([p]) == Porcentaje(25000.0, 19.0) == 4750.0;
    assert CalcularRetencion([p]) == Porcentaje(25000.0, 4.0) == 1000.0;
    assert CalcularCostoEnvio([p]) == 8000.0;
  }

  /** The order `crearOrden` builds from the cart charges the subtotal: no tax and no shipping. */
  lemma CrearOrdenCobraSubtotal(ps: seq<Product>, compradorId: int, ahora: int, fecha: int)
    ensures CrearOrden(ps, compradorId, ahora, fecha).total == SumaPrecios(ps)
  {
  }

  // ---- the checkout steps ----

  /** `steps.length`: shipping address, summary and payment, confirmation. */
  const Pasos: int := 3

  /** `user?.id || 0`. */
  function Comprador(usuario: Option<int>): int
  {
    if usuario.Some? then usuario.value else 0
  }

  /** The products whose id has not been passed to the removal callback yet. */
  function Restantes(quitados: set<int>): Product -> bool
  {
    (p: Product) => p.id !in quitados
  }

  /** `carrito` is what is left of `ps` once the ids in `quitados` have been passed to the callback. */
  ghost predicate Pendientes(carrito: seq<Product>, ps: seq<Product>, quitados: set<int>)
  {
    carrito == Filter(ps, Restantes(quitados))
  }

  /** Before any id has been passed, the whole list is left. */
  lemma PendientesInicio(ps: seq<Product>)
    ensures Pendientes(ps, ps, {})
  {
    FilterAll(ps, Restantes({}));
  }

  /** Passing one more id to the callback drops the products with that id from what is left. */
  lemma QuitarPaso(carrito: seq<Product>, ps: seq<Product>, quitados: set<int>, id: int)
    requires Pendientes(carrito, ps, quitados)
    ensures Pendientes(SinProducto(carrito, id), ps, quitados + {id})
  {
    forall k | 0 <= k < |ps|
      ensures Restantes(quitados + {id})(ps[k]) == (Restantes(quitados)(ps[k]) && OtroId(id)(ps[k]))
    {
    }
    FilterFilter(ps, Restantes(quitados), OtroId(id), Restantes(quitados + {id}));
  }

  /** The ids of the first `i` products have been passed to the callback. */
  ghost predicate Quitados(ps: seq<Product>, i: nat, quitados: set<int>)
  {
    forall k :: 0 <= k < i && k < |ps| ==> ps[k].id in quitados
  }

  lemma QuitadosPaso(ps: seq<Product>, i: nat, quitados: set<int>)
    requires Quitados(ps, i, quitados) && i < |ps|
    ensures Quitados(ps, i + 1, quitados + {ps[i].id})
  {
  }

  /** Once every id has been passed to the callback, nothing is left. */
  lemma NadaRestante(carrito: seq<Product>, ps: seq<Product>, quitados: set<int>)
    requires Quitados(ps, |ps|, quitados) && Pendientes(carrito, ps, quitados)
    ensures carrito == []
  {
    FilterNone(ps, Restantes(quitados));
  }

  /**
   * The checkout dialog. `carrito` is the cart the dialog shows (the parent's list, which the
   * removal callback edits), `activeStep` and `orden` its own state.
   */
  class Checkout {
    var carrito: seq<Product>
    var activeStep: int
    var orden: Option<OrdenCompra>

    /** The step is one of the three, and past the first one there is a paid order to show. */
    ghost predicate Valid()
      reads this
    {
      0 <= activeStep < Pasos && (activeStep > 0 ==> orden.Some? && orden.value.estado == Pagada)
    }

    /** "Siguiente"/"Confirmar Compra" is shown before the last step and enabled for a non-empty cart. */
    predicate PuedeSiguiente()
      reads this
    {
      activeStep != Pasos - 1 && |carrito| > 0
    }

    /** "Atrás" replaces "Cancelar" after the first step. */
    predicate PuedeAtras()
      reads this
    {
      activeStep != 0
    }

    /** "Finalizar" is shown on the last step. */
    predicate PuedeFinalizar()
      reads this
    {
      activeStep == Pasos - 1
    }

    constructor (carrito: seq<Product>)
      ensures Valid() && this.carrito == carrito && activeStep == 0 && orden == None
    {
      this.carrito := carrito;
      activeStep := 0;
      orden := None;
    }

    /**
     * `handleNext`. On the first step it creates and pays the order for the cart and moves on;
     * `fallo` stands for either call rejecting, which leaves the step where it was. On any
     * other step it just moves on. `ahora`, `fecha` and `tPago` are the clock readings.
     */
    method HandleNext(usuario: Option<int>, ahora: int, fecha: int, tPago: int, fallo: bool)
      modifies this
      ensures carrito == old(carrito)
      ensures old(activeStep) == 0 && fallo ==> activeStep == 0 && orden == old(orden)
      ensures old(activeStep) == 0 && !fallo ==>
        activeStep == 1 && orden == Some(ProcesarPago(CrearOrden(carrito, Comprador(usuario), ahora, fecha), tPago))
      ensures old(activeStep) != 0 ==> activeStep == old(activeStep) + 1 && orden == old(orden)
      ensures old(Valid()) && old(PuedeSiguiente()) ==> Valid()
    {
      if activeStep == 0 {
        if !fallo {
          var nuevaOrden := CrearOrden(carrito, Comprador(usuario), ahora, fecha);
          var ordenProcesada := ProcesarPago(nuevaOrden, tPago);
          orden := Some(ordenProcesada);
          activeStep := activeStep + 1;
        }
      } else {
        activeStep := activeStep + 1;
      }
    }

    /** `handleBack`. */
    method HandleBack()
      modifies this
      ensures activeStep == old(activeStep) - 1 && orden == old(orden) && carrito == old(carrito)
      ensures old(Valid()) && old(PuedeAtras()) ==> Valid()
    {
      activeStep := activeStep - 1;
    }

    /**
     * `handleFinish`: calls the removal callback with the id of every product the dialog
     * shows, then goes back to the first step with no order. The callback is taken to drop
     * every product with that id from the cart.
     */
    method HandleFinish()
      modifies this
      ensures carrito == [] && activeStep == 0 && orden == None
      ensures Valid()
    {
      var productos := carrito;
      ghost var quitados: set<int> := {};
      PendientesInicio(productos);
      var i := 0;
      while i < |productos|
        invariant 0 <= i <= |productos|
        invariant Quitados(productos, i, quitados)
        invariant Pendientes(carrito, productos, quitados)
      {
        var id := productos[i].id;
        QuitarPaso(carrito, productos, quitados, id);
        QuitadosPaso(productos, i, quitados);
        carrito := SinProducto(carrito, id);
        quitados := quitados + {id};
        i := i + 1;
      }
      NadaRestante(carrito, productos, quitados);
      activeStep := 0;
      orden := None;
    }
  }
}
