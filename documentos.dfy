/**
 * Document verification stubs (`DocumentoService`): format checks for the Colombian
 * registrations RUT, DIAN, INVIMA and ICA, synthetic invoice and certificate-of-origin
 * identifiers, the expiry watch-list and the in-place update of a user's documents.
 */
module Documentos {
  import opened Common
  import opened Text

  datatype TipoDocumento = Rut | Dian | Invima | Ica

  /**
   * `documentos.fechaVencimiento`: one entry per document type, in the order the keys were
   * first written, which is the order `Object.entries` reports them in.
   */
  type Fechas = seq<(TipoDocumento, string)>

  /** `Usuario['documentos']`: registration numbers by type, and their expiry dates. */
  datatype Documentos = Documentos(numeros: map<TipoDocumento, string>, fechaVencimiento: Option<Fechas>)

  /** A user account; only `documentos` is ever written by the services. */
  class Usuario {
    const id: int
    const nombre: string
    const email: string
    var documentos: Option<Documentos>

    constructor (id: int, nombre: string, email: string, documentos: Option<Documentos>)
      requires FechasUnicas(documentos)
      ensures this.id == id && this.nombre == nombre && this.email == email
      ensures this.documentos == documentos
    {
      this.id := id;
      this.nombre := nombre;
      this.email := email;
      this.documentos := documentos;
    }
  }

  // ---- validators ----

  /** `verificarRUT`: a RUT number has exactly ten characters, so no RUT number passes as a NIT. */
  function VerificarRUT(numeroRUT: string): (ok: bool)
    ensures ok <==> |numeroRUT| == 10
    ensures ok ==> !VerificarRegistroDIAN(numeroRUT)
  {
    |numeroRUT| == 10
  }

  /** `verificarRegistroDIAN`: a NIT has exactly nine characters. */
  function VerificarRegistroDIAN(nit: string): (ok: bool)
    ensures ok <==> |nit| == 9
  {
    |nit| == 9
  }

  /** `verificarINVIMA`: a sanitary registration is "RSAD" followed by anything, so it is never an ICA number. */
  function VerificarINVIMA(numeroRegistro: string): (ok: bool)
    ensures ok <==> exists rest :: numeroRegistro == "RSAD" + rest
    ensures ok ==> !VerificarICA(numeroRegistro)
  {
    var ok := StartsWith(numeroRegistro, "RSAD");
    assert ok ==> numeroRegistro[0] == 'R' by {
      if ok {
        var rest :| numeroRegistro == "RSAD" + rest;
      }
    }
    ok
  }

  /** `verificarICA`: an ICA registration is "ICA" followed by anything. */
  function VerificarICA(numeroRegistro: string): (ok: bool)
    ensures ok <==> exists rest :: numeroRegistro == "ICA" + rest
    ensures ok ==> |numeroRegistro| >= 3 && numeroRegistro[0] == 'I'
  {
    var ok := StartsWith(numeroRegistro, "ICA");
    assert ok ==> |numeroRegistro| >= 3 && numeroRegistro[0] == 'I' by {
      if ok {
        var rest :| numeroRegistro == "ICA" + rest;
      }
    }
    ok
  }

  /** The `switch (tipo)` of `actualizarDocumento`: the validator that applies to each type. */
  function Validar(tipo: TipoDocumento, numero: string): (ok: bool)
    ensures tipo == Rut ==> (ok <==> |numero| == 10)
    ensures tipo == Dian ==> (ok <==> |numero| == 9)
    ensures tipo == Invima ==> (ok <==> exists rest :: numero == "RSAD" + rest)
    ensures tipo == Ica ==> (ok <==> exists rest :: numero == "ICA" + rest)
    ensures ok ==> numero != ""
  {
    match tipo
    case Rut => VerificarRUT(numero)
    case Dian => VerificarRegistroDIAN(numero)
    case Invima => VerificarINVIMA(numero)
    case Ica => VerificarICA(numero)
  }

  // ---- synthetic identifiers ----

  /**
   * `FE-${ordenId}-${Date.now()}`, with the clock reading passed in. It names its order and its
   * clock reading, and can be read back.
   */
  function FacturaElectronica(ordenId: int, ahora: int): (r: string)
    ensures "FE-" <= r
    ensures ParseIdentificador("FE", r) == Some((ordenId, ahora))
  {
    ParseIdentificadorRoundTrip("FE", ordenId, ahora);
    "FE" + "-" + NumberToString(ordenId) + "-" + NumberToString(ahora)
  }

  /**
   * `CO-${productoId}-${Date.now()}`, with the clock reading passed in. It names its product and
   * its clock reading, and can be read back.
   */
  function CertificadoOrigen(productoId: int, ahora: int): (r: string)
    ensures "CO-" <= r
    ensures ParseIdentificador("CO", r) == Some((productoId, ahora))
  {
    ParseIdentificadorRoundTrip("CO", productoId, ahora);
    "CO" + "-" + NumberToString(productoId) + "-" + NumberToString(ahora)
  }

  /** Position of the first '-' at or after `from`, if any. */
  function DashFrom(s: string, from: nat): (r: Option<nat>)
    requires from <= |s|
    ensures r.Some? ==> from <= r.value < |s| && s[r.value] == '-'
    ensures r.Some? ==> forall k :: from <= k < r.value ==> s[k] != '-'
    ensures r.None? ==> forall k :: from <= k < |s| ==> s[k] != '-'
    decreases |s| - from
  {
    if from == |s| then None
    else if s[from] == '-' then Some(from)
    else DashFrom(s, from + 1)
  }

  /**
   * Reads a `<tag>-<id>-<timestamp>` identifier back: the separator after the id is the first
   * '-' that is not the id's own sign.
   */
  function ParseIdentificador(tag: string, s: string): Option<(int, int)>
  {
    if !(tag + "-" <= s) then None
    else
      var body := s[|tag| + 1..];
      if |body| == 0 then None
      else match DashFrom(body, 1)
        case None => None
        case Some(k) =>
          match (ParseNumber(body[..k]), ParseNumber(body[k + 1..]))
          case (Some(a), Some(b)) => Some((a, b))
          case _ => None
  }

  lemma ParseIdentificadorRoundTrip(tag: string, a: int, b: int)
    ensures ParseIdentificador(tag, tag + "-" + NumberToString(a) + "-" + NumberToString(b)) == Some((a, b))
  {
    var sa, sb := NumberToString(a), NumberToString(b);
    var s := tag + "-" + sa + "-" + sb;
    assert tag + "-" <= s;
    var body := s[|tag| + 1..];
    assert body == sa + "-" + sb;
    NumberToStringNoInnerDash(a);
    assert |sa| > 0;
    assert DashFrom(body, 1) == Some(|sa|) by {
      assert forall k :: 1 <= k < |sa| ==> body[k] == sa[k];
      assert body[|sa|] == '-';
    }
    assert body[..|sa|] == sa;
    assert body[|sa| + 1..] == sb;
    NumberToStringRoundTrip(a);
    NumberToStringRoundTrip(b);
  }


  /** Invoices and certificates of origin never collide. */
  lemma FacturaNoEsCertificado(a: int, b: int, c: int, d: int)
    ensures FacturaElectronica(a, b) != CertificadoOrigen(c, d)
  {
    assert FacturaElectronica(a, b)[0] == 'F';
    assert CertificadoOrigen(c, d)[0] == 'C';
  }

  // ---- expiry dates: an insertion-ordered record ----

  /** `fechas[tipo]`, if the key has been written. */
  function Fecha(fechas: Fechas, tipo: TipoDocumento): (r: Option<string>)
    ensures r.Some? <==> exists k :: 0 <= k < |fechas| && fechas[k].0 == tipo
    ensures r.Some? ==> exists k :: 0 <= k < |fechas| && fechas[k] == (tipo, r.value)
  {
    if fechas == [] then None
    else if fechas[0].0 == tipo then Some(fechas[0].1)
    else
      var r := Fecha(fechas[1..], tipo);
      assert forall k :: 1 <= k < |fechas| ==> fechas[k] == fechas[1..][k - 1];
      r
  }

  /** Every key appears at most once. */
  ghost predicate ClavesUnicas(fechas: Fechas)
  {
    forall i, j :: 0 <= i < j < |fechas| ==> fechas[i].0 != fechas[j].0
  }

  /** `fechas[tipo] = valor`: overwrite in place when the key exists, append it otherwise. */
  function AsignarFecha(fechas: Fechas, tipo: TipoDocumento, valor: string): (r: Fechas)
  {
    if fechas == [] then [(tipo, valor)]
    else if fechas[0].0 == tipo then [(tipo, valor)] + fechas[1..]
    else [fechas[0]] + AsignarFecha(fechas[1..], tipo, valor)
  }

  /** After the assignment the key reads back the new value and every other key is unchanged. */
  lemma {:induction false} AsignarFechaLee(fechas: Fechas, tipo: TipoDocumento, valor: string, t: TipoDocumento)
    ensures Fecha(AsignarFecha(fechas, tipo, valor), t) == if t == tipo then Some(valor) else Fecha(fechas, t)
  {
    if fechas != [] && fechas[0].0 != tipo {
      AsignarFechaLee(fechas[1..], tipo, valor, t);
      var r := AsignarFecha(fechas, tipo, valor);
      assert r[1..] == AsignarFecha(fechas[1..], tipo, valor);
    }
  }

  /** The assignment writes an existing key in place: no key is ever duplicated. */
  lemma {:induction false} AsignarFechaUnica(fechas: Fechas, tipo: TipoDocumento, valor: string)
    requires ClavesUnicas(fechas)
    ensures ClavesUnicas(AsignarFecha(fechas, tipo, valor))
    ensures |AsignarFecha(fechas, tipo, valor)| == if Fecha(fechas, tipo).Some? then |fechas| else |fechas| + 1
  {
    if fechas != [] && fechas[0].0 != tipo {
      AsignarFechaUnica(fechas[1..], tipo, valor);
      var rest := AsignarFecha(fechas[1..], tipo, valor);
      forall k | 0 <= k < |rest|
        ensures rest[k].0 != fechas[0].0
      {
        AsignarFechaLee(fechas[1..], tipo, valor, fechas[0].0);
      }
    }
  }

  /** A JS object holds each key once: the expiry dates of a user repeat no document type. */
  ghost predicate FechasUnicas(docs: Option<Documentos>)
  {
    docs.Some? && docs.value.fechaVencimiento.Some? ==> ClavesUnicas(docs.value.fechaVencimiento.value)
  }

  // ---- actualizarDocumento ----

  /** The documents after a successful `actualizarDocumento`, containers created as needed. */
  function Registrar(docs: Option<Documentos>, tipo: TipoDocumento, numero: string, fecha: string): (r: Documentos)
    ensures tipo in r.numeros && r.numeros[tipo] == numero
    ensures forall t :: t != tipo && docs.Some? ==> (t in r.numeros <==> t in docs.value.numeros)
    ensures forall t :: t != tipo && docs.Some? && t in docs.value.numeros ==> r.numeros[t] == docs.value.numeros[t]
    ensures forall t :: t != tipo && docs.None? ==> t !in r.numeros
    ensures r.fechaVencimiento.Some? && Fecha(r.fechaVencimiento.value, tipo) == Some(fecha)
    ensures forall t :: t != tipo ==> (Fecha(r.fechaVencimiento.value, t) ==
      if docs.Some? && docs.value.fechaVencimiento.Some? then Fecha(docs.value.fechaVencimiento.value, t) else None)
  {
    var d := if docs.None? then Documentos(map[], Some([])) else docs.value;
    var d := d.(numeros := d.numeros[tipo := numero]);
    var fechas := if d.fechaVencimiento.None? then [] else d.fechaVencimiento.value;
    assert forall t :: Fecha(AsignarFecha(fechas, tipo, fecha), t) == if t == tipo then Some(fecha) else Fecha(fechas, t) by {
      forall t ensures Fecha(AsignarFecha(fechas, tipo, fecha), t) == if t == tipo then Some(fecha) else Fecha(fechas, t) {
        AsignarFechaLee(fechas, tipo, fecha, t);
      }
    }
    d.(fechaVencimiento := Some(AsignarFecha(fechas, tipo, fecha)))
  }

  /** Registering a document keeps every document type at most once among the expiry dates. */
  lemma RegistrarUnica(docs: Option<Documentos>, tipo: TipoDocumento, numero: string, fecha: string)
    requires FechasUnicas(docs)
    ensures FechasUnicas(Some(Registrar(docs, tipo, numero, fecha)))
  {
    var fechas := if docs.None? || docs.value.fechaVencimiento.None? then [] else docs.value.fechaVencimiento.value;
    AsignarFechaUnica(fechas, tipo, fecha);
  }

  /**
   * `actualizarDocumento`: validates the number for its type and, only when it is valid,
   * writes the number and its expiry date into the user's record.
   */
  method ActualizarDocumento(usuario: Usuario, tipo: TipoDocumento, numeroDocumento: string, fechaVencimiento: string)
    returns (ok: bool)
    modifies usuario
    ensures ok == Validar(tipo, numeroDocumento)
    ensures !ok ==> usuario.documentos == old(usuario.documentos)
    ensures ok ==> usuario.documentos == Some(Registrar(old(usuario.documentos), tipo, numeroDocumento, fechaVencimiento))
    ensures FechasUnicas(old(usuario.documentos)) ==> FechasUnicas(usuario.documentos)
  {
    if FechasUnicas(usuario.documentos) {
      RegistrarUnica(usuario.documentos, tipo, numeroDocumento, fechaVencimiento);
    }
    var esValido := false;
    match tipo {
      case Rut => esValido := VerificarRUT(numeroDocumento);
      case Dian => esValido := VerificarRegistroDIAN(numeroDocumento);
      case Invima => esValido := VerificarINVIMA(numeroDocumento);
      case Ica => esValido := VerificarICA(numeroDocumento);
    }
    if !esValido {
      return false;
    }
    if usuario.documentos.None? {
      usuario.documentos := Some(Documentos(map[], Some([])));
    }
    var d := usuario.documentos.value;
    usuario.documentos := Some(d.(numeros := d.numeros[tipo := numeroDocumento]));
    if usuario.documentos.value.fechaVencimiento.None? {
      usuario.documentos := Some(usuario.documentos.value.(fechaVencimiento := Some([])));
    }
    var fechas := usuario.documentos.value.fechaVencimiento.value;
    usuario.documentos := Some(usuario.documentos.value.(fechaVencimiento := Some(AsignarFecha(fechas, tipo, fechaVencimiento))));
    return true;
  }

  // ---- simularIntegracionVUCE / simularIntegracionMUISCA ----

  function NoVacio(s: Option<string>): bool
  {
    s.Some? && s.value != ""
  }

  function Numero(d: Documentos, tipo: TipoDocumento): Option<string>
  {
    if tipo in d.numeros then Some(d.numeros[tipo]) else None
  }

  function FechaDe(d: Documentos, tipo: TipoDocumento): Option<string>
  {
    if d.fechaVencimiento.Some? then Fecha(d.fechaVencimiento.value, tipo) else None
  }

  /** RUT and DIAN numbers and both of their expiry dates are present and non-empty. */
  function TieneDocumentosRequeridos(documentos: Option<Documentos>): bool
  {
    documentos.Some? &&
    NoVacio(Numero(documentos.value, Rut)) && NoVacio(Numero(documentos.value, Dian)) &&
    NoVacio(FechaDe(documentos.value, Rut)) && NoVacio(FechaDe(documentos.value, Dian))
  }

  /** `simularIntegracionVUCE`: the foreign-trade single window accepts the required documents. */
  function SimularIntegracionVUCE(documentos: Option<Documentos>): (ok: bool)
    ensures documentos.None? ==> !ok
    ensures ok <==> TieneDocumentosRequeridos(documentos)
  {
    if documentos.None? then false else TieneDocumentosRequeridos(documentos)
  }

  /** `simularIntegracionMUISCA`: the tax authority's system, with the same requirement. */
  function SimularIntegracionMUISCA(documentos: Option<Documentos>): (ok: bool)
    ensures documentos.None? ==> !ok
    ensures ok <==> TieneDocumentosRequeridos(documentos)
  {
    if documentos.None? then false else TieneDocumentosRequeridos(documentos)
  }

  /**
   * Registering a valid RUT and a valid DIAN number, both with non-empty expiry dates, is
   * enough for VUCE, whatever the user's documents were before.
   */
  lemma RegistroHabilitaVUCE(docs: Option<Documentos>, rut: string, fRut: string, dian: string, fDian: string)
    requires Validar(Rut, rut) && Validar(Dian, dian)
    requires fRut != "" && fDian != ""
    ensures SimularIntegracionVUCE(Some(Registrar(Some(Registrar(docs, Rut, rut, fRut)), Dian, dian, fDian)))
  {
    var d1 := Registrar(docs, Rut, rut, fRut);
    var d2 := Registrar(Some(d1), Dian, dian, fDian);
    assert Numero(d2, Rut) == Some(rut);
    assert FechaDe(d2, Rut) == Some(fRut);
  }

  // ---- verificarDocumentosProximosVencer ----

  datatype DocumentoVencimiento = DocumentoVencimiento(tipo: TipoDocumento, fechaVencimiento: string)

  /**
   * An entry is reported when its date is non-empty, is a date at all (`diasRestantes`
   * returns `None` for a string that is not) and falls within the next 15 days.
   */
  predicate ProximoAVencer(fecha: string, diasRestantes: string -> Option<int>)
  {
    fecha != "" && diasRestantes(fecha).Some? && 0 < diasRestantes(fecha).value <= 15
  }

  /** An expiry entry as the (type, date) pair it was read from. */
  function Pares(r: seq<DocumentoVencimiento>): (p: seq<(TipoDocumento, string)>)
    ensures |p| == |r|
    ensures forall i :: 0 <= i < |r| ==> p[i] == (r[i].tipo, r[i].fechaVencimiento)
  {
    if r == [] then [] else [(r[0].tipo, r[0].fechaVencimiento)] + Pares(r[1..])
  }

  lemma ParesAppend(r: seq<DocumentoVencimiento>, d: DocumentoVencimiento)
    ensures Pares(r + [d]) == Pares(r) + [(d.tipo, d.fechaVencimiento)]
  {
    var a, b := Pares(r + [d]), Pares(r) + [(d.tipo, d.fechaVencimiento)];
    assert |a| == |b|;
    forall i | 0 <= i < |a| ensures a[i] == b[i] {
      if i < |r| { assert (r + [d])[i] == r[i]; }
    }
  }

  /** `ProximoAVencer` on a (type, date) pair. */
  function AVencer(diasRestantes: string -> Option<int>): ((TipoDocumento, string)) -> bool
  {
    (e: (TipoDocumento, string)) => ProximoAVencer(e.1, diasRestantes)
  }

  /** An entry among those whose pairs are the expiring dates is itself expiring. */
  lemma ParVence(r: seq<DocumentoVencimiento>, fechas: Fechas, diasRestantes: string -> Option<int>, d: DocumentoVencimiento)
    requires Pares(r) == Filter(fechas, AVencer(diasRestantes))
    requires d in r
    ensures (d.tipo, d.fechaVencimiento) in fechas && ProximoAVencer(d.fechaVencimiento, diasRestantes)
  {
    var i :| 0 <= i < |r| && r[i] == d;
    assert Pares(r)[i] == (d.tipo, d.fechaVencimiento);
  }

  /** An expiring date shows up as an entry among those whose pairs are the expiring dates. */
  lemma VenceEnPares(r: seq<DocumentoVencimiento>, fechas: Fechas, diasRestantes: string -> Option<int>, d: DocumentoVencimiento)
    requires Pares(r) == Filter(fechas, AVencer(diasRestantes))
    requires (d.tipo, d.fechaVencimiento) in fechas && AVencer(diasRestantes)((d.tipo, d.fechaVencimiento))
    ensures d in r
  {
    var p := Pares(r);
    var i :| 0 <= i < |p| && p[i] == (d.tipo, d.fechaVencimiento);
    assert r[i] == d;
  }

  /** Entries whose pairs are the expiring dates are exactly the expiring entries. */
  lemma ParesVencen(r: seq<DocumentoVencimiento>, fechas: Fechas, diasRestantes: string -> Option<int>)
    requires Pares(r) == Filter(fechas, AVencer(diasRestantes))
    ensures |r| <= |fechas|
    ensures forall d :: d in r <==> (d.tipo, d.fechaVencimiento) in fechas && ProximoAVencer(d.fechaVencimiento, diasRestantes)
  {
    forall d | d in r
      ensures (d.tipo, d.fechaVencimiento) in fechas && ProximoAVencer(d.fechaVencimiento, diasRestantes)
    {
      ParVence(r, fechas, diasRestantes, d);
    }
    forall d: DocumentoVencimiento | (d.tipo, d.fechaVencimiento) in fechas && AVencer(diasRestantes)((d.tipo, d.fechaVencimiento))
      ensures d in r
    {
      VenceEnPares(r, fechas, diasRestantes, d);
    }
  }

  /**
   * The entries of `fechas` that are about to expire: read back as pairs they are exactly
   * `fechas` filtered by `ProximoAVencer`, so they keep the entries' order and multiplicity.
   */
  function PorVencer(fechas: Fechas, diasRestantes: string -> Option<int>): (r: seq<DocumentoVencimiento>)
    ensures |r| <= |fechas|
    ensures forall d :: d in r <==> (d.tipo, d.fechaVencimiento) in fechas && ProximoAVencer(d.fechaVencimiento, diasRestantes)
    ensures Pares(r) == Filter(fechas, AVencer(diasRestantes))
    ensures IsSubsequence(Pares(r), fechas)
  {
    var r :=
      (if fechas == [] then []
      else
        var n := |fechas| - 1;
        var previo := PorVencer(fechas[..n], diasRestantes);
        assert fechas == fechas[..n] + [fechas[n]];
        FilterAppend(fechas[..n], fechas[n], AVencer(diasRestantes));
        var entrada := fechas[n];
        if ProximoAVencer(entrada.1, diasRestantes) then
          ParesAppend(previo, DocumentoVencimiento(entrada.0, entrada.1));
          previo + [DocumentoVencimiento(entrada.0, entrada.1)]
        else previo);
    ParesVencen(r, fechas, diasRestantes);
    r
  }

  /**
   * `verificarDocumentosProximosVencer`: walks the expiry dates and collects those within
   * 15 days. `diasRestantes` stands for the calendar arithmetic against today's date.
   */
  method VerificarDocumentosProximosVencer(usuario: Usuario, diasRestantes: string -> Option<int>)
    returns (r: seq<DocumentoVencimiento>)
    ensures usuario.documentos.None? || usuario.documentos.value.fechaVencimiento.None? ==> r == []
    ensures usuario.documentos.Some? && usuario.documentos.value.fechaVencimiento.Some? ==>
      r == PorVencer(usuario.documentos.value.fechaVencimiento.value, diasRestantes)
  {
    if usuario.documentos.None? || usuario.documentos.value.fechaVencimiento.None? {
      return [];
    }
    var fechas := usuario.documentos.value.fechaVencimiento.value;
    r := [];
    var i := 0;
    while i < |fechas|
      invariant 0 <= i <= |fechas|
      invariant r == PorVencer(fechas[..i], diasRestantes)
    {
      var (tipo, fecha) := fechas[i];
      if fecha != "" {
        var dias := diasRestantes(fecha);
        if dias.Some? && dias.value <= 15 && dias.value > 0 {
          r := r + [DocumentoVencimiento(tipo, fecha)];
        }
      }
      assert fechas[..i + 1][..i] == fechas[..i];
      i := i + 1;
    }
    assert fechas[..i] == fechas;
  }
}
