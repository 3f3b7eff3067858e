/**
 * The message store (`MensajeService`): a module-level array of messages and an id counter,
 * changed in place by `enviar`, `marcarComoLeido` and `eliminar`, and read by three queries.
 */
module Mensajes {
  import opened Common
  import opened Sorting

  /** A message; `fechaEnvio` is the send instant, `productoId` the product it is about, if any. */
  datatype Mensaje = Mensaje(
    id: int,
    emisorId: int,
    receptorId: int,
    productoId: Option<int>,
    contenido: string,
    fechaEnvio: int,
    leido: bool)

  /** `findIndex(m => m.id === id)`: the first position holding that id. */
  function IndexOfMensaje(ms: seq<Mensaje>, id: int): (r: Option<nat>)
    ensures r.Some? ==> r.value < |ms| && ms[r.value].id == id
    ensures r.Some? ==> forall j :: 0 <= j < r.value ==> ms[j].id != id
    ensures r.None? ==> forall j :: 0 <= j < |ms| ==> ms[j].id != id
  {
    if ms == [] then None
    else if ms[0].id == id then Some(0)
    else match IndexOfMensaje(ms[1..], id)
      case None => None
      case Some(k) => Some(k + 1)
  }

  lemma {:induction false} IndexOfMensajeSameIds(ms: seq<Mensaje>, qs: seq<Mensaje>, id: int)
    requires |ms| == |qs|
    requires forall j :: 0 <= j < |ms| ==> ms[j].id == qs[j].id
    ensures IndexOfMensaje(ms, id) == IndexOfMensaje(qs, id)
  {
    if ms != [] && ms[0].id != id {
      IndexOfMensajeSameIds(ms[1..], qs[1..], id);
    }
  }

  /** Ids handed out by `++lastId` increase along the store. */
  ghost predicate IdsCrecientes(ms: seq<Mensaje>)
  {
    forall i, j :: 0 <= i < j < |ms| ==> ms[i].id < ms[j].id
  }

  // ---- marcarComoLeido ----

  /** `mensaje.leido = true` on the first message with `id`, if any. */
  function Leido(ms: seq<Mensaje>, id: int): seq<Mensaje>
  {
    match IndexOfMensaje(ms, id)
    case None => ms
    case Some(i) => ms[i := ms[i].(leido := true)]
  }

  /** Marking a message read twice is the same as marking it once. */
  lemma LeidoIdempotente(ms: seq<Mensaje>, id: int)
    ensures Leido(Leido(ms, id), id) == Leido(ms, id)
  {
    IndexOfMensajeSameIds(ms, Leido(ms, id), id);
  }

  // ---- eliminar ----

  /** `splice(index, 1)` at the first message with `id`, if any. */
  function SinMensaje(ms: seq<Mensaje>, id: int): seq<Mensaje>
  {
    match IndexOfMensaje(ms, id)
    case None => ms
    case Some(i) => ms[..i] + ms[i + 1..]
  }

  /** Deleting keeps the other messages in their order, so ids keep increasing. */
  lemma SinMensajeCrecientes(ms: seq<Mensaje>, id: int)
    requires IdsCrecientes(ms)
    ensures IdsCrecientes(SinMensaje(ms, id))
  {
    if IndexOfMensaje(ms, id).Some? {
      var i := IndexOfMensaje(ms, id).value;
      var r := SinMensaje(ms, id);
      forall a, b | 0 <= a < b < |r|
        ensures r[a].id < r[b].id
      {
        var a' := if a < i then a else a + 1;
        var b' := if b < i then b else b + 1;
        assert r[a] == ms[a'] && r[b] == ms[b'];
      }
    }
  }

  /** With increasing ids, deleting an id leaves no message with it. */
  lemma SinMensajeQuita(ms: seq<Mensaje>, id: int)
    requires IdsCrecientes(ms)
    ensures forall j :: 0 <= j < |SinMensaje(ms, id)| ==> SinMensaje(ms, id)[j].id != id
  {
    if IndexOfMensaje(ms, id).Some? {
      var i := IndexOfMensaje(ms, id).value;
      var r := SinMensaje(ms, id);
      forall j | 0 <= j < |r|
        ensures r[j].id != id
      {
        if j < i {
          assert r[j] == ms[j];
        } else {
          assert r[j] == ms[j + 1] && ms[i].id < ms[j + 1].id;
        }
      }
    }
  }

  // ---- queries ----

  /** The receiving user's unread messages. */
  function NoLeidoPara(u: int): Mensaje -> bool
  {
    (m: Mensaje) => m.receptorId == u && !m.leido
  }

  /** With increasing ids, a message marked read is not among anyone's unread messages. */
  lemma NoLeidosTrasLeido(ms: seq<Mensaje>, id: int, u: int)
    requires IdsCrecientes(ms)
    ensures forall j :: 0 <= j < |Filter(Leido(ms, id), NoLeidoPara(u))| ==> Filter(Leido(ms, id), NoLeidoPara(u))[j].id != id
  {
    var l := Leido(ms, id);
    var r := Filter(l, NoLeidoPara(u));
    forall j | 0 <= j < |r|
      ensures r[j].id != id
    {
      assert r[j] in l && !r[j].leido;
      var k :| 0 <= k < |l| && l[k] == r[j];
      if IndexOfMensaje(ms, id).Some? {
        var i := IndexOfMensaje(ms, id).value;
        if k != i {
          assert l[k] == ms[k];
          assert ms[k].id != ms[i].id by {
            if k < i { assert ms[k].id < ms[i].id; } else { assert ms[i].id < ms[k].id; }
          }
        }
      }
    }
  }

  /** A message sent to `u` while unread shows up last among `u`'s unread messages. */
  lemma NoLeidosTrasEnviar(ms: seq<Mensaje>, m: Mensaje, u: int)
    ensures Filter(ms + [m], NoLeidoPara(u))
         == Filter(ms, NoLeidoPara(u)) + (if m.receptorId == u && !m.leido then [m] else [])
  {
    FilterAppend(ms, m, NoLeidoPara(u));
  }

  /** Whether `m` belongs to the conversation of `a` and `b`, on product `productoId` when it is truthy. */
  predicate EnConversacion(m: Mensaje, a: int, b: int, productoId: Option<int>)
  {
    ((m.emisorId == a && m.receptorId == b) || (m.emisorId == b && m.receptorId == a))
    && (productoId.None? || productoId == Some(0) || m.productoId == productoId)
  }

  /** `EnConversacion` as the predicate handed to `filter`. */
  function DeConversacion(a: int, b: int, productoId: Option<int>): Mensaje -> bool
  {
    (m: Mensaje) => EnConversacion(m, a, b, productoId)
  }

  function Fecha(m: Mensaje): int
  {
    m.fechaEnvio
  }

  /**
   * The conversation filter, sorted by send time, oldest first: a reordering of the filtered
   * messages, each repeated as often as it is in `ms`.
   */
  function Conversacion(ms: seq<Mensaje>, a: int, b: int, productoId: Option<int>): (r: seq<Mensaje>)
    ensures SortedBy(r, Fecha)
    ensures forall m :: m in r <==> m in ms && EnConversacion(m, a, b, productoId)
    ensures multiset(r) == multiset(Filter(ms, DeConversacion(a, b, productoId)))
  {
    var filtrados := Filter(ms, DeConversacion(a, b, productoId));
    var r := SortBy(filtrados, Fecha);
    assert forall m :: m in r <==> m in filtrados by {
      forall m
        ensures m in r <==> m in filtrados
      {
        assert m in r <==> m in multiset(r);
        assert m in filtrados <==> m in multiset(filtrados);
      }
    }
    assert forall m :: m in filtrados <==> m in ms && EnConversacion(m, a, b, productoId) by {
      forall m
        ensures m in filtrados <==> m in ms && EnConversacion(m, a, b, productoId)
      {
        if m in ms && EnConversacion(m, a, b, productoId) {
          var i :| 0 <= i < |ms| && ms[i] == m;
        }
        if m in filtrados {
          var i :| 0 <= i < |filtrados| && filtrados[i] == m;
        }
      }
    }
    r
  }

  /** The conversation of `a` with `b` is the conversation of `b` with `a`. */
  lemma ConversacionSimetrica(ms: seq<Mensaje>, a: int, b: int, productoId: Option<int>)
    ensures Conversacion(ms, a, b, productoId) == Conversacion(ms, b, a, productoId)
  {
    FilterExt(ms, DeConversacion(a, b, productoId), DeConversacion(b, a, productoId));
  }

  // ---- obtenerUltimosMensajes ----

  /** The user at the other end of `m`, seen from `u`. */
  function Otro(m: Mensaje, u: int): int
  {
    if m.emisorId == u then m.receptorId else m.emisorId
  }

  /** `m.emisorId === u || m.receptorId === u`. */
  function Involucra(u: int): Mensaje -> bool
  {
    (m: Mensaje) => m.emisorId == u || m.receptorId == u
  }

  /** One entry of a `Map<number, Mensaje>`. */
  datatype Entrada = Entrada(clave: int, valor: Mensaje)

  /** `map.get(k)`, as the position of the entry with key `k`. */
  function Clave(conv: seq<Entrada>, k: int): (r: Option<nat>)
    ensures r.Some? ==> r.value < |conv| && conv[r.value].clave == k
    ensures r.None? ==> forall i :: 0 <= i < |conv| ==> conv[i].clave != k
  {
    if conv == [] then None
    else if conv[|conv| - 1].clave == k then Some(|conv| - 1)
    else Clave(conv[..|conv| - 1], k)
  }

  /** `map.set(k, v)`: a present key keeps its place and takes the new value; a new key goes last. */
  function Poner(conv: seq<Entrada>, k: int, v: Mensaje): seq<Entrada>
  {
    match Clave(conv, k)
    case None => conv + [Entrada(k, v)]
    case Some(i) => conv[i := Entrada(k, v)]
  }

  /** One turn of the `forEach`: keep `m` for its counterpart unless a message at least as recent is kept. */
  function Registrar(conv: seq<Entrada>, u: int, m: Mensaje): seq<Entrada>
  {
    var otro := Otro(m, u);
    var existente := Clave(conv, otro);
    if existente.None? || m.fechaEnvio > conv[existente.value].valor.fechaEnvio then Poner(conv, otro, m)
    else conv
  }

  /** The map after the `forEach` over `rs`: at most one entry per message, each holding a message of `rs`. */
  function Conversaciones(rs: seq<Mensaje>, u: int): (r: seq<Entrada>)
    ensures |r| <= |rs|
  {
    if rs == [] then [] else Registrar(Conversaciones(rs[..|rs| - 1], u), u, rs[|rs| - 1])
  }

  /** One more turn of the `forEach`. */
  lemma ConversacionesPaso(rs: seq<Mensaje>, u: int, i: nat)
    requires i < |rs|
    ensures Conversaciones(rs[..i + 1], u) == Registrar(Conversaciones(rs[..i], u), u, rs[i])
  {
    assert rs[..i + 1][..i] == rs[..i];
  }

  /**
   * `Array.from(map.values())`: the values in insertion order. The ensures only unfolds the
   * comprehension index by index, for the lemmas about `Ultimos`.
   */
  function Valores(conv: seq<Entrada>): (vs: seq<Mensaje>)
    ensures |vs| == |conv| && forall i :: 0 <= i < |conv| ==> vs[i] == conv[i].valor
  {
    seq(|conv|, i requires 0 <= i < |conv| => conv[i].valor)
  }

  function MenosFecha(m: Mensaje): int
  {
    -m.fechaEnvio
  }

  /** `obtenerUltimosMensajes(u)`: the kept message of every counterpart, newest first. */
  function Ultimos(ms: seq<Mensaje>, u: int): (r: seq<Mensaje>)
    ensures forall i, j :: 0 <= i < j < |r| ==> r[i].fechaEnvio >= r[j].fechaEnvio
  {
    var r := SortBy(Valores(Conversaciones(Filter(ms, Involucra(u)), u)), MenosFecha);
    assert SortedBy(r, MenosFecha);
    r
  }

  /** The map has one entry per counterpart, keyed by the counterpart of its message. */
  ghost predicate ClavesBien(conv: seq<Entrada>, u: int)
  {
    && (forall i, j :: 0 <= i < j < |conv| ==> conv[i].clave != conv[j].clave)
    && (forall i :: 0 <= i < |conv| ==> conv[i].clave == Otro(conv[i].valor, u))
  }

  lemma {:induction false} ConversacionesClaves(rs: seq<Mensaje>, u: int)
    ensures ClavesBien(Conversaciones(rs, u), u)
  {
    if rs != [] {
      ConversacionesClaves(rs[..|rs| - 1], u);
    }
  }

  /** Every counterpart met in `rs` has an entry. */
  lemma {:induction false} ConversacionesCubre(rs: seq<Mensaje>, u: int, j: nat)
    requires j < |rs|
    ensures Clave(Conversaciones(rs, u), Otro(rs[j], u)).Some?
  {
    var p := rs[..|rs| - 1];
    var m := rs[|rs| - 1];
    var conv := Conversaciones(p, u);
    var k := Otro(rs[j], u);
    if j < |p| {
      ConversacionesCubre(p, u, j);
      assert p[j] == rs[j];
      var e := Clave(conv, k).value;
      var nueva := Registrar(conv, u, m);
      assert |conv| <= |nueva| && nueva[e].clave == k;
    } else {
      var nueva := Registrar(conv, u, m);
      if Clave(conv, k).Some? {
        var e := Clave(conv, k).value;
        assert nueva[e].clave == k;
      } else {
        assert nueva[|conv|].clave == k;
      }
    }
  }

  /**
   * The message kept for the entry `i` comes from `rs`, no message with the same counterpart is
   * more recent, and every earlier one with that counterpart is strictly older: on equal times
   * the first one met stays.
   */
  lemma {:induction false} ConversacionesMaximo(rs: seq<Mensaje>, u: int, i: nat) returns (j: nat)
    requires i < |Conversaciones(rs, u)|
    ensures j < |rs| && rs[j] == Conversaciones(rs, u)[i].valor
    ensures forall j' :: 0 <= j' < |rs| && Otro(rs[j'], u) == Conversaciones(rs, u)[i].clave ==>
      rs[j'].fechaEnvio <= rs[j].fechaEnvio && (j' < j ==> rs[j'].fechaEnvio < rs[j].fechaEnvio)
  {
    var p := rs[..|rs| - 1];
    var m := rs[|rs| - 1];
    var conv := Conversaciones(p, u);
    var conv2 := Conversaciones(rs, u);
    var k := Otro(m, u);
    var existente := Clave(conv, k);
    ConversacionesClaves(p, u);
    assert forall j' :: 0 <= j' < |p| ==> rs[j'] == p[j'];
    if conv2[i].clave != k {
      // the entry was not touched by `m`
      assert i < |conv| && conv2[i] == conv[i];
      var j0 := ConversacionesMaximo(p, u, i);
      j := j0;
    } else if conv2[i].valor == m && (existente.None? || m.fechaEnvio > conv[existente.value].valor.fechaEnvio) {
      j := |rs| - 1;
      forall j' | 0 <= j' < |rs| - 1 && Otro(rs[j'], u) == k
        ensures rs[j'].fechaEnvio < m.fechaEnvio
      {
        ConversacionesCubre(p, u, j');
        var e := existente.value;
        var je := ConversacionesMaximo(p, u, e);
      }
    } else {
      // `m` lost against the message already kept, which sits at the same place
      var e := existente.value;
      assert conv2 == conv && e == i;
      var j0 := ConversacionesMaximo(p, u, i);
      j := j0;
    }
  }

  function OtroDe(u: int): Mensaje -> int
  {
    (m: Mensaje) => Otro(m, u)
  }

  /** `obtenerUltimosMensajes` returns at most one message per counterpart. */
  lemma UltimosUnoPorContraparte(ms: seq<Mensaje>, u: int)
    ensures DistinctBy(Ultimos(ms, u), OtroDe(u))
  {
    var conv := Conversaciones(Filter(ms, Involucra(u)), u);
    ConversacionesClaves(Filter(ms, Involucra(u)), u);
    var vs := Valores(conv);
    assert DistinctBy(vs, OtroDe(u)) by {
      forall i, j | 0 <= i < j < |vs|
        ensures OtroDe(u)(vs[i]) != OtroDe(u)(vs[j])
      {
        assert conv[i].clave != conv[j].clave;
      }
    }
    SortByDistinct(vs, MenosFecha, OtroDe(u));
  }

  /**
   * Each message `obtenerUltimosMensajes` returns involves `u`, and no message of the store with
   * the same counterpart is more recent; among the messages involving `u`, in store order, every
   * earlier one with that counterpart is strictly older, so a tie keeps the first one met.
   */
  lemma UltimosMasReciente(ms: seq<Mensaje>, u: int, k: nat) returns (j: nat)
    requires k < |Ultimos(ms, u)|
    ensures var m := Ultimos(ms, u)[k];
      && m in ms && Involucra(u)(m)
      && (forall i :: 0 <= i < |ms| && Involucra(u)(ms[i]) && Otro(ms[i], u) == Otro(m, u) ==> ms[i].fechaEnvio <= m.fechaEnvio)
    ensures var rs := Filter(ms, Involucra(u));
      && j < |rs| && rs[j] == Ultimos(ms, u)[k]
      && forall j' :: 0 <= j' < j && Otro(rs[j'], u) == Otro(rs[j], u) ==> rs[j'].fechaEnvio < rs[j].fechaEnvio
  {
    var rs := Filter(ms, Involucra(u));
    var conv := Conversaciones(rs, u);
    var vs := Valores(conv);
    var m := Ultimos(ms, u)[k];
    SortByMember(vs, MenosFecha, k);
    var e :| 0 <= e < |vs| && vs[e] == m;
    ConversacionesClaves(rs, u);
    j := ConversacionesMaximo(rs, u, e);
    assert rs[j] in rs;
    CotaEnFiltrados(ms, u, m);
  }

  /** A bound on the messages involving `u` with one counterpart holds for those messages in `ms`. */
  lemma CotaEnFiltrados(ms: seq<Mensaje>, u: int, m: Mensaje)
    requires forall i' :: 0 <= i' < |Filter(ms, Involucra(u))| && Otro(Filter(ms, Involucra(u))[i'], u) == Otro(m, u) ==>
               Filter(ms, Involucra(u))[i'].fechaEnvio <= m.fechaEnvio
    ensures forall i :: 0 <= i < |ms| && Involucra(u)(ms[i]) && Otro(ms[i], u) == Otro(m, u) ==> ms[i].fechaEnvio <= m.fechaEnvio
  {
    var rs := Filter(ms, Involucra(u));
    forall i | 0 <= i < |ms| && Involucra(u)(ms[i]) && Otro(ms[i], u) == Otro(m, u)
      ensures ms[i].fechaEnvio <= m.fechaEnvio
    {
      assert ms[i] in rs;
      var i' :| 0 <= i' < |rs| && rs[i'] == ms[i];
    }
  }

  /** Every counterpart `u` has exchanged a message with gets an entry in `obtenerUltimosMensajes`. */
  lemma UltimosCubre(ms: seq<Mensaje>, u: int, i: nat)
    requires i < |ms| && Involucra(u)(ms[i])
    ensures exists k :: 0 <= k < |Ultimos(ms, u)| && Otro(Ultimos(ms, u)[k], u) == Otro(ms[i], u)
  {
    var rs := Filter(ms, Involucra(u));
    assert ms[i] in rs;
    var j :| 0 <= j < |rs| && rs[j] == ms[i];
    ConversacionesCubre(rs, u, j);
    var conv := Conversaciones(rs, u);
    ConversacionesClaves(rs, u);
    var e := Clave(conv, Otro(ms[i], u)).value;
    var vs := Valores(conv);
    var r := Ultimos(ms, u);
    assert vs[e] in multiset(r);
    var k :| 0 <= k < |r| && r[k] == vs[e];
  }

  // ---- the store ----

  class MensajeStore {
    var mensajes: seq<Mensaje>
    var lastId: int

    /** Ids come from `++lastId`: increasing along the store and never past `lastId`. */
    ghost predicate Valid()
      reads this
    {
      IdsCrecientes(mensajes) && forall j :: 0 <= j < |mensajes| ==> mensajes[j].id <= lastId
    }

    constructor ()
      ensures Valid() && mensajes == [] && lastId == 0
    {
      mensajes := [];
      lastId := 0;
    }

    /** `enviar`: appends an unread message numbered `++lastId`, sent at `ahora`. */
    method Enviar(emisorId: int, receptorId: int, contenido: string, productoId: Option<int>, ahora: int)
      returns (m: Mensaje)
      requires Valid()
      modifies this
      ensures Valid()
      ensures lastId == old(lastId) + 1
      ensures m == Mensaje(lastId, emisorId, receptorId, productoId, contenido, ahora, false)
      ensures mensajes == old(mensajes) + [m]
    {
      lastId := lastId + 1;
      m := Mensaje(lastId, emisorId, receptorId, productoId, contenido, ahora, false);
      mensajes := mensajes + [m];
    }

    /** `obtenerConversacion`. */
    function ObtenerConversacion(a: int, b: int, productoId: Option<int>): (r: seq<Mensaje>)
      reads this
      ensures forall i, j :: 0 <= i < j < |r| ==> r[i].fechaEnvio <= r[j].fechaEnvio
      ensures forall m :: m in r <==> m in mensajes && EnConversacion(m, a, b, productoId)
      ensures multiset(r) == multiset(Filter(mensajes, DeConversacion(a, b, productoId)))
    {
      var r := Conversacion(mensajes, a, b, productoId);
      assert SortedBy(r, Fecha);
      r
    }

    /** `marcarComoLeido`: sets `leido` on the first message with `id`. */
    method MarcarComoLeido(id: int) returns (ok: bool)
      requires Valid()
      modifies this
      ensures Valid() && lastId == old(lastId)
      ensures ok <==> exists j :: 0 <= j < |old(mensajes)| && old(mensajes)[j].id == id
      ensures mensajes == Leido(old(mensajes), id)
    {
      var index := IndexOfMensaje(mensajes, id);
      if index.None? {
        return false;
      }
      var i := index.value;
      mensajes := mensajes[i := mensajes[i].(leido := true)];
      return true;
    }

    /** `obtenerNoLeidos`: the unread messages received by `u`, in store order. */
    function ObtenerNoLeidos(u: int): (r: seq<Mensaje>)
      reads this
      ensures IsSubsequence(r, mensajes)
      ensures forall j :: 0 <= j < |r| ==> r[j].receptorId == u && !r[j].leido
      ensures forall j :: 0 <= j < |mensajes| && mensajes[j].receptorId == u && !mensajes[j].leido ==> mensajes[j] in r
    {
      Filter(mensajes, NoLeidoPara(u))
    }

    /** `eliminar`: removes the first message with `id`. */
    method Eliminar(id: int) returns (ok: bool)
      requires Valid()
      modifies this
      ensures Valid() && lastId == old(lastId)
      ensures ok <==> exists j :: 0 <= j < |old(mensajes)| && old(mensajes)[j].id == id
      ensures mensajes == SinMensaje(old(mensajes), id)
      ensures ok ==> |mensajes| == |old(mensajes)| - 1
    {
      SinMensajeCrecientes(mensajes, id);
      var index := IndexOfMensaje(mensajes, id);
      if index.None? {
        return false;
      }
      var i := index.value;
      mensajes := mensajes[..i] + mensajes[i + 1..];
      return true;
    }

    /**
     * `obtenerUltimosMensajes`: walks the messages involving `u`, keeping in a map the most
     * recent one per counterpart, then sorts the kept messages newest first.
     */
    method ObtenerUltimosMensajes(u: int) returns (r: seq<Mensaje>)
      ensures r == Ultimos(mensajes, u)
    {
      var rs := Filter(mensajes, Involucra(u));
      var conversaciones := RecorrerConversaciones(rs, u);
      r := SortBy(Valores(conversaciones), MenosFecha);
    }
  }

  /** The `forEach` of `obtenerUltimosMensajes` over the messages involving `u`. */
  method RecorrerConversaciones(rs: seq<Mensaje>, u: int) returns (conversaciones: seq<Entrada>)
    ensures conversaciones == Conversaciones(rs, u)
  {
    conversaciones := [];
    var i := 0;
    while i < |rs|
      invariant 0 <= i <= |rs|
      invariant conversaciones == Conversaciones(rs[..i], u)
    {
      ConversacionesPaso(rs, u, i);
      var m := rs[i];
      var otro := if m.emisorId == u then m.receptorId else m.emisorId;
      var existente := Clave(conversaciones, otro);
      if existente.None? || m.fechaEnvio > conversaciones[existente.value].valor.fechaEnvio {
        conversaciones := Poner(conversaciones, otro, m);
      }
      i := i + 1;
    }
    assert rs[..i] == rs;
  }
}
