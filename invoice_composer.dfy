/**
 * The invoice composer page: a list of lines with a fresh-id counter, the chosen client and
 * payment condition, the per-tax subtotals computed from the lines, the guard that opens the
 * confirmation dialog, and the confirmation that builds the backend record and resets.
 * Amounts are exact reals.
 */
module InvoiceComposer {
  import opened Wrappers
  import opened InvoiceTypes
  import opened InvoiceTransformer

  // ---------------------------------------------------------------------------
  // Line edits
  // ---------------------------------------------------------------------------

  /** The editable fields of a line. */
  datatype Campo = Codigo | Descripcion | Unidad | Cantidad | Precio | TipoIva

  /** `actualizarItem(id, campo, valor)` with the value typed by its field. */
  datatype Edit =
    | SetCodigo(codigo: string)
    | SetDescripcion(descripcion: string)
    | SetUnidad(unidad: string)
    | SetCantidad(cantidad: real)
    | SetPrecio(precio: real)
    | SetTipoIva(tipoIva: string)

  function CampoOf(e: Edit): Campo {
    match e
    case SetCodigo(_) => Codigo
    case SetDescripcion(_) => Descripcion
    case SetUnidad(_) => Unidad
    case SetCantidad(_) => Cantidad
    case SetPrecio(_) => Precio
    case SetTipoIva(_) => TipoIva
  }

  /** `a` and `b` have the same id and agree on every field other than `c`. */
  predicate SameExcept(a: InvoiceItem, b: InvoiceItem, c: Campo) {
    && a.id == b.id
    && (c != Codigo ==> a.codigo == b.codigo)
    && (c != Descripcion ==> a.descripcion == b.descripcion)
    && (c != Unidad ==> a.unidad == b.unidad)
    && (c != Cantidad ==> a.cantidad == b.cantidad)
    && (c != Precio ==> a.precio == b.precio)
    && (c != TipoIva ==> a.tipoIva == b.tipoIva)
  }

  /** `{ ...item, [campo]: valor }`. */
  function Applied(it: InvoiceItem, e: Edit): (r: InvoiceItem)
    ensures SameExcept(it, r, CampoOf(e))
    ensures e.SetCodigo? ==> r.codigo == e.codigo
    ensures e.SetDescripcion? ==> r.descripcion == e.descripcion
    ensures e.SetUnidad? ==> r.unidad == e.unidad
    ensures e.SetCantidad? ==> r.cantidad == e.cantidad
    ensures e.SetPrecio? ==> r.precio == e.precio
    ensures e.SetTipoIva? ==> r.tipoIva == e.tipoIva
  {
    match e
    case SetCodigo(v) => it.(codigo := v)
    case SetDescripcion(v) => it.(descripcion := v)
    case SetUnidad(v) => it.(unidad := v)
    case SetCantidad(v) => it.(cantidad := v)
    case SetPrecio(v) => it.(precio := v)
    case SetTipoIva(v) => it.(tipoIva := v)
  }

  // ---------------------------------------------------------------------------
  // The list operations
  // ---------------------------------------------------------------------------

  predicate IdsDistinct(items: seq<InvoiceItem>) {
    forall i, j :: 0 <= i < j < |items| ==> items[i].id != items[j].id
  }

  predicate IdsBelow(items: seq<InvoiceItem>, bound: int) {
    forall i :: 0 <= i < |items| ==> items[i].id < bound
  }

  /** `items.filter(item => item.id !== id)`. */
  function RemoveItems(items: seq<InvoiceItem>, id: int): (r: seq<InvoiceItem>)
    ensures |r| <= |items|
    decreases |items|
  {
    if items == [] then []
    else (if items[0].id == id then [] else [items[0]]) + RemoveItems(items[1..], id)
  }

  /** The kept lines are exactly the lines without the id. */
  lemma {:induction false} RemoveMembers(items: seq<InvoiceItem>, id: int)
    ensures forall x :: x in RemoveItems(items, id) <==> x in items && x.id != id
    decreases |items|
  {
    if items != [] {
      RemoveMembers(items[1..], id);
      assert items == [items[0]] + items[1..];
    }
  }

  /** Filtering works piece by piece, so the kept lines keep their order. */
  lemma {:induction false} RemoveAppend(a: seq<InvoiceItem>, b: seq<InvoiceItem>, id: int)
    ensures RemoveItems(a + b, id) == RemoveItems(a, id) + RemoveItems(b, id)
    decreases |a|
  {
    if a == [] {
      assert a + b == b;
    } else {
      assert (a + b)[0] == a[0] && (a + b)[1..] == a[1..] + b;
      RemoveAppend(a[1..], b, id);
    }
  }

  /** Removing an id that no line has changes nothing. */
  lemma {:induction false} RemoveAbsent(items: seq<InvoiceItem>, id: int)
    requires forall k :: 0 <= k < |items| ==> items[k].id != id
    ensures RemoveItems(items, id) == items
    decreases |items|
  {
    if items != [] {
      RemoveAbsent(items[1..], id);
    }
  }

  /** Removing the id of line `k`, which no other line has, leaves the lines around it in order. */
  lemma {:induction false} RemoveOnlyAt(items: seq<InvoiceItem>, k: nat)
    requires k < |items|
    requires forall j :: 0 <= j < |items| && j != k ==> items[j].id != items[k].id
    ensures RemoveItems(items, items[k].id) == items[..k] + items[k + 1..]
    decreases k
  {
    var id, t := items[k].id, items[1..];
    if k == 0 {
      forall j | 0 <= j < |t| ensures t[j].id != id {
        assert t[j] == items[j + 1];
      }
      RemoveAbsent(t, id);
    } else {
      assert t[k - 1] == items[k];
      forall j | 0 <= j < |t| && j != k - 1 ensures t[j].id != t[k - 1].id {
        assert t[j] == items[j + 1];
      }
      RemoveOnlyAt(t, k - 1);
      assert items[..k] == [items[0]] + t[..k - 1];
      assert items[k + 1..] == t[k..];
    }
  }

  /** With distinct ids, removing a line's id removes that line alone and keeps the rest in order. */
  lemma RemoveUnique(items: seq<InvoiceItem>, k: nat)
    requires IdsDistinct(items) && k < |items|
    ensures RemoveItems(items, items[k].id) == items[..k] + items[k + 1..]
  {
    forall j | 0 <= j < |items| && j != k ensures items[j].id != items[k].id {
      if j < k { assert items[j].id != items[k].id; } else { assert items[k].id != items[j].id; }
    }
    RemoveOnlyAt(items, k);
  }

  /** Filtering keeps ids distinct. */
  lemma {:induction false} RemoveKeepsDistinct(items: seq<InvoiceItem>, id: int)
    requires IdsDistinct(items)
    ensures IdsDistinct(RemoveItems(items, id))
    decreases |items|
  {
    if items != [] {
      RemoveKeepsDistinct(items[1..], id);
      RemoveMembers(items[1..], id);
      var rest := RemoveItems(items[1..], id);
      forall x | x in rest ensures x.id != items[0].id {
        var j :| 0 <= j < |items[1..]| && items[1..][j] == x;
        assert items[j + 1] == x;
      }
    }
  }

  /** `items.map(item => item.id === id ? { ...item, [campo]: valor } : item)`. */
  function UpdateItems(items: seq<InvoiceItem>, id: int, e: Edit): (r: seq<InvoiceItem>)
    ensures |r| == |items|
    decreases |items|
  {
    if items == [] then []
    else [if items[0].id == id then Applied(items[0], e) else items[0]] + UpdateItems(items[1..], id, e)
  }

  /** The lines with the id get the edit; every other line is kept as it was, in place. */
  lemma {:induction false} UpdateItemsSpec(items: seq<InvoiceItem>, id: int, e: Edit)
    ensures forall k :: 0 <= k < |items| ==>
              UpdateItems(items, id, e)[k] == (if items[k].id == id then Applied(items[k], e) else items[k])
    decreases |items|
  {
    if items != [] {
      UpdateItemsSpec(items[1..], id, e);
      forall k | 0 <= k < |items|
        ensures UpdateItems(items, id, e)[k] == (if items[k].id == id then Applied(items[k], e) else items[k])
      {
        if k > 0 { assert items[k] == items[1..][k - 1]; }
      }
    }
  }

  /** An edit keeps every id where it was. */
  lemma UpdateKeepsIds(items: seq<InvoiceItem>, id: int, e: Edit, bound: int)
    requires IdsBelow(items, bound) && IdsDistinct(items)
    ensures IdsBelow(UpdateItems(items, id, e), bound) && IdsDistinct(UpdateItems(items, id, e))
  {
    var r := UpdateItems(items, id, e);
    UpdateItemsSpec(items, id, e);
    assert forall k :: 0 <= k < |r| ==> r[k].id == items[k].id;
  }

  /** `items.find(item => item.id === id)`. */
  function FindFirst(items: seq<InvoiceItem>, id: int): Option<InvoiceItem>
    decreases |items|
  {
    if items == [] then None
    else if items[0].id == id then Some(items[0])
    else FindFirst(items[1..], id)
  }

  /** The line found is the first with the id, and nothing is found exactly when no line has it. */
  lemma {:induction false} FindFirstSpec(items: seq<InvoiceItem>, id: int)
    ensures var r := FindFirst(items, id);
            && (r.None? <==> forall k :: 0 <= k < |items| ==> items[k].id != id)
            && (r.Some? ==> exists k :: 0 <= k < |items| && items[k] == r.value && r.value.id == id
                                        && forall j :: 0 <= j < k ==> items[j].id != id)
    decreases |items|
  {
    if items != [] && items[0].id != id {
      FindFirstSpec(items[1..], id);
      var r := FindFirst(items[1..], id);
      if r.Some? {
        var k :| 0 <= k < |items[1..]| && items[1..][k] == r.value && r.value.id == id
                 && forall j :: 0 <= j < k ==> items[1..][j].id != id;
        assert items[k + 1] == r.value;
        forall j | 0 <= j < k + 1 ensures items[j].id != id {
          if j > 0 { assert items[j] == items[1..][j - 1]; }
        }
      } else {
        forall k | 0 <= k < |items| ensures items[k].id != id {
          if k > 0 { assert items[k] == items[1..][k - 1]; }
        }
      }
    }
  }

  function Max0(x: real): real { if x > 0.0 then x else 0.0 }

  /**
   * `actualizarCantidad(id, cambio)`: the first line with the id decides the new quantity
   * `max(0, cantidad + cambio)`, written through `actualizarItem`; an unknown id changes nothing.
   */
  function SteppedItems(items: seq<InvoiceItem>, id: int, cambio: real): seq<InvoiceItem> {
    var found := FindFirst(items, id);
    if found.None? then items else UpdateItems(items, id, SetCantidad(Max0(found.value.cantidad + cambio)))
  }

  /** With distinct ids the stepped line alone gets `max(0, q + cambio)`; the rest are kept. */
  lemma SteppedQuantity(items: seq<InvoiceItem>, id: int, cambio: real)
    requires IdsDistinct(items)
    ensures var r := SteppedItems(items, id, cambio);
            && |r| == |items|
            && forall k :: 0 <= k < |items| ==>
                 if items[k].id == id then SameExcept(items[k], r[k], Cantidad)
                                          && r[k].cantidad == Max0(items[k].cantidad + cambio)
                                          && r[k].cantidad >= 0.0
                 else r[k] == items[k]
  {
    var f := FindFirst(items, id);
    FindFirstSpec(items, id);
    UpdateItemsSpec(items, id, SetCantidad(Max0(if f.Some? then f.value.cantidad + cambio else 0.0)));
    if f.Some? {
      var k0 :| 0 <= k0 < |items| && items[k0] == f.value && f.value.id == id;
      forall k | 0 <= k < |items| && items[k].id == id ensures k == k0 {
      }
    }
  }

  /** A step on an id that no line has is a no-op. */
  lemma SteppedUnknown(items: seq<InvoiceItem>, id: int, cambio: real)
    requires forall k :: 0 <= k < |items| ==> items[k].id != id
    ensures SteppedItems(items, id, cambio) == items
  {
    FindFirstSpec(items, id);
  }

  // ---------------------------------------------------------------------------
  // Totals
  // ---------------------------------------------------------------------------

  function LineAmount(it: InvoiceItem): real { it.cantidad * it.precio }

  /** A line counts towards subtotal `t` when `t` is one of the three tags and the line has it. */
  predicate Counts(t: string, it: InvoiceItem) {
    (t == Exentas || t == Iva5 || t == Iva10) && it.tipoIva == t
  }

  /** `calcularSubtotal(t)`: the left fold over the lines. */
  function Subtotal(items: seq<InvoiceItem>, t: string): (r: real)
    ensures t != Exentas && t != Iva5 && t != Iva10 ==> r == 0.0
    ensures (forall k :: 0 <= k < |items| ==> items[k].tipoIva != t) ==> r == 0.0
    decreases |items|
  {
    if items == [] then 0.0
    else
      var last := items[|items| - 1];
      Subtotal(items[..|items| - 1], t) + (if Counts(t, last) then LineAmount(last) else 0.0)
  }

  function TotalVenta(items: seq<InvoiceItem>): real {
    Subtotal(items, Exentas) + Subtotal(items, Iva5) + Subtotal(items, Iva10)
  }

  function TotalIva(items: seq<InvoiceItem>): real {
    Subtotal(items, Iva5) * 0.05 + Subtotal(items, Iva10) * 0.1
  }

  /** `items.reduce((total, item) => total + item.cantidad, 0)`. */
  function CantidadTotal(items: seq<InvoiceItem>): real
    decreases |items|
  {
    if items == [] then 0.0 else CantidadTotal(items[..|items| - 1]) + items[|items| - 1].cantidad
  }

  function Totals(items: seq<InvoiceItem>): Totales {
    Totales(CantidadTotal(items), Subtotal(items, Exentas), Subtotal(items, Iva5), Subtotal(items, Iva10),
            TotalVenta(items), TotalIva(items))
  }

  /** A subtotal of two lists of lines is the sum of their subtotals. */
  lemma {:induction false} SubtotalAppend(a: seq<InvoiceItem>, b: seq<InvoiceItem>, t: string)
    ensures Subtotal(a + b, t) == Subtotal(a, t) + Subtotal(b, t)
    decreases |b|
  {
    if b == [] {
      assert a + b == a;
    } else {
      var b' := b[..|b| - 1];
      assert (a + b)[..|a + b| - 1] == a + b';
      assert (a + b)[|a + b| - 1] == b[|b| - 1];
      SubtotalAppend(a, b', t);
    }
  }

  /** The amount of the lines whose tag is one of the three, an independent reading of the sale total. */
  function TaggedAmount(items: seq<InvoiceItem>): real
    decreases |items|
  {
    if items == [] then 0.0
    else
      var it := items[0];
      (if it.tipoIva == Exentas || it.tipoIva == Iva5 || it.tipoIva == Iva10 then LineAmount(it) else 0.0)
        + TaggedAmount(items[1..])
  }

  /** The sale total is every tagged line's amount once; a line with another tag adds nothing. */
  lemma {:induction false} TotalVentaIsTaggedAmount(items: seq<InvoiceItem>)
    ensures TotalVenta(items) == TaggedAmount(items)
    decreases |items|
  {
    if items != [] {
      var h := [items[0]];
      var t := items[1..];
      assert items == h + t;
      SubtotalAppend(h, t, Exentas);
      SubtotalAppend(h, t, Iva5);
      SubtotalAppend(h, t, Iva10);
      assert h[..0] == [];
      TotalVentaIsTaggedAmount(t);
    }
  }

  /** The IVA of two lists of lines is the sum of their IVA. */
  lemma TotalIvaAppend(a: seq<InvoiceItem>, b: seq<InvoiceItem>)
    ensures TotalIva(a + b) == TotalIva(a) + TotalIva(b)
  {
    SubtotalAppend(a, b, Iva5);
    SubtotalAppend(a, b, Iva10);
  }

  /** A blank line (price 0) leaves every subtotal as it was. */
  lemma BlankLineKeepsSubtotals(items: seq<InvoiceItem>, it: InvoiceItem, t: string)
    requires it.precio == 0.0
    ensures Subtotal(items + [it], t) == Subtotal(items, t)
  {
    assert (items + [it])[..|items|] == items;
  }

  /** The quantity total of two lists of lines is the sum of their totals. */
  lemma {:induction false} CantidadTotalAppend(a: seq<InvoiceItem>, b: seq<InvoiceItem>)
    ensures CantidadTotal(a + b) == CantidadTotal(a) + CantidadTotal(b)
    decreases |b|
  {
    if b == [] {
      assert a + b == a;
    } else {
      var b' := b[..|b| - 1];
      assert (a + b)[..|a + b| - 1] == a + b';
      assert (a + b)[|a + b| - 1] == b[|b| - 1];
      CantidadTotalAppend(a, b');
    }
  }

  // ---------------------------------------------------------------------------
  // Emission
  // ---------------------------------------------------------------------------

  const SinItems := "Debe agregar al menos un ítem"
  const SinCliente := "Debe seleccionar un cliente"

  /** `emitirFactura`'s checks, in order: the alert it shows, or None when it opens the dialog. */
  function EmitGuard(items: seq<InvoiceItem>, cliente: Option<Client>): (r: Option<string>)
    ensures r.None? <==> |items| > 0 && cliente.Some?
    ensures r == Some(SinItems) <==> |items| == 0
    ensures r == Some(SinCliente) <==> |items| > 0 && cliente.None?
  {
    if |items| == 0 then Some(SinItems)
    else if cliente.None? then Some(SinCliente)
    else None
  }

  /** Once the guard lets an invoice through, building its record cannot fail. */
  lemma EmitAllowsTransform(d: FacturaData, a: AdditionalData, now: string, draw: real)
    requires 0.0 <= draw < 1.0 && EmitGuard(d.items, d.cliente).None?
    ensures TransformToCompleteInvoiceStructure(d, a, now, draw).Success?
  {
  }

  /** The record `handleConfirmInvoice` builds: its overrides carry the page's own code and date. */
  function ConfirmedRecord(d: FacturaData, now: string, draw: real): Result<CompleteInvoice, string>
    requires 0.0 <= draw < 1.0
  {
    TransformToCompleteInvoiceStructure(d, ConfirmOverrides(RandomCode(draw), now), now, draw)
  }

  // ---------------------------------------------------------------------------
  // The page state
  // ---------------------------------------------------------------------------

  class Composer {
    var items: seq<InvoiceItem>
    var cliente: Option<Client>
    var proximoId: int
    var condicionPago: string
    var confirmOpen: bool

    /** Every line has its own id, and every id is below the next one to hand out. */
    ghost predicate Valid()
      reads this
    {
      proximoId >= 1 && IdsBelow(items, proximoId) && IdsDistinct(items)
    }

    constructor()
      ensures Valid()
      ensures items == [] && cliente.None? && proximoId == 1 && condicionPago == "Contado" && !confirmOpen
    {
      items := [];
      cliente := None;
      proximoId := 1;
      condicionPago := "Contado";
      confirmOpen := false;
    }

    /** The data handed to the confirmation dialog and the transformer. */
    function Data(): (d: FacturaData)
      reads this
      ensures d.items == items && d.cliente == cliente && d.totales == Totals(items)
    {
      FacturaData(cliente, condicionPago, items, Totals(items))
    }

    /** Appends `line` under the next id and advances the counter. */
    method AppendWithFreshId(line: ItemDraft)
      requires Valid()
      modifies this
      ensures Valid()
      ensures items == old(items) + [WithId(line, old(proximoId))] && proximoId == old(proximoId) + 1
      ensures cliente == old(cliente) && condicionPago == old(condicionPago) && confirmOpen == old(confirmOpen)
    {
      items := items + [WithId(line, proximoId)];
      proximoId := proximoId + 1;
    }

    /** `agregarItem`: a blank line (UNI, quantity 1, price 0, 10 %) under the next id. */
    method AgregarItem()
      requires Valid()
      modifies this
      ensures Valid()
      ensures items == old(items) + [InvoiceItem(old(proximoId), "", "", "UNI", 1.0, 0.0, Iva10)]
      ensures proximoId == old(proximoId) + 1
      ensures cliente == old(cliente) && condicionPago == old(condicionPago) && confirmOpen == old(confirmOpen)
    {
      AppendWithFreshId(ItemDraft("", "", "UNI", 1.0, 0.0, Iva10));
    }

    /** `handleSelectProduct`: the chosen product under the next id. */
    method SelectProduct(product: ItemDraft)
      requires Valid()
      modifies this
      ensures Valid()
      ensures items == old(items) + [WithId(product, old(proximoId))] && proximoId == old(proximoId) + 1
      ensures cliente == old(cliente) && condicionPago == old(condicionPago) && confirmOpen == old(confirmOpen)
    {
      AppendWithFreshId(product);
    }

    /** `eliminarItem`: drops the lines with the id. */
    method EliminarItem(id: int)
      requires Valid()
      modifies this
      ensures Valid()
      ensures items == RemoveItems(old(items), id) && proximoId == old(proximoId)
      ensures cliente == old(cliente) && condicionPago == old(condicionPago) && confirmOpen == old(confirmOpen)
    {
      RemoveKeepsDistinct(items, id);
      RemoveMembers(items, id);
      items := RemoveItems(items, id);
    }

    /** `actualizarItem`: the edit applied to the lines with the id. */
    method ActualizarItem(id: int, e: Edit)
      requires Valid()
      modifies this
      ensures Valid()
      ensures items == UpdateItems(old(items), id, e) && proximoId == old(proximoId)
      ensures cliente == old(cliente) && condicionPago == old(condicionPago) && confirmOpen == old(confirmOpen)
    {
      UpdateKeepsIds(items, id, e, proximoId);
      items := UpdateItems(items, id, e);
    }

    /** `actualizarCantidad`: the quantity stepped by `cambio`, never below zero. */
    method ActualizarCantidad(id: int, cambio: real)
      requires Valid()
      modifies this
      ensures Valid()
      ensures items == SteppedItems(old(items), id, cambio) && proximoId == old(proximoId)
      ensures cliente == old(cliente) && condicionPago == old(condicionPago) && confirmOpen == old(confirmOpen)
    {
      var found := FindFirst(items, id);
      if found.Some? {
        ActualizarItem(id, SetCantidad(Max0(found.value.cantidad + cambio)));
      }
    }

    /** `handleSelectCustomer`. */
    method SelectCustomer(customer: Client)
      requires Valid()
      modifies this
      ensures Valid()
      ensures cliente == Some(customer)
      ensures items == old(items) && proximoId == old(proximoId)
      ensures condicionPago == old(condicionPago) && confirmOpen == old(confirmOpen)
    {
      cliente := Some(customer);
    }

    /** `emitirFactura`: the alert shown, or None after opening the confirmation dialog. */
    method EmitirFactura() returns (alert: Option<string>)
      requires Valid()
      modifies this
      ensures Valid()
      ensures alert == EmitGuard(items, cliente)
      ensures confirmOpen == (alert.None? || old(confirmOpen))
      ensures items == old(items) && cliente == old(cliente) && proximoId == old(proximoId)
      ensures condicionPago == old(condicionPago)
    {
      alert := EmitGuard(items, cliente);
      if alert.None? {
        confirmOpen := true;
      }
    }

    /**
     * `handleConfirmInvoice` with the clock reading `now` and one random draw: the record is
     * built from the page's data; when that throws nothing else happens, otherwise the
     * dialog closes and the page starts over.
     */
    method ConfirmInvoice(now: string, draw: real) returns (r: Result<CompleteInvoice, string>)
      requires Valid() && 0.0 <= draw < 1.0
      modifies this
      ensures Valid()
      ensures r == ConfirmedRecord(old(Data()), now, draw)
      ensures r.Failure? ==> items == old(items) && cliente == old(cliente) && proximoId == old(proximoId)
                             && confirmOpen == old(confirmOpen)
      ensures r.Success? ==> items == [] && cliente.None? && proximoId == 1 && !confirmOpen
      ensures condicionPago == old(condicionPago)
    {
      r := ConfirmedRecord(Data(), now, draw);
      if r.Success? {
        Reset();
      }
    }

    /** Closes the dialog and starts the page over with no client and no lines. */
    method Reset()
      modifies this
      ensures Valid()
      ensures items == [] && cliente.None? && proximoId == 1 && !confirmOpen
      ensures condicionPago == old(condicionPago)
    {
      confirmOpen := false;
      cliente := None;
      items := [];
      proximoId := 1;
    }
  }

  /** After a blank line is added the totals are those of before, apart from one more unit. */
  lemma AgregarItemTotals(items: seq<InvoiceItem>, id: int)
    ensures var it := InvoiceItem(id, "", "", "UNI", 1.0, 0.0, Iva10);
            && TotalVenta(items + [it]) == TotalVenta(items)
            && CantidadTotal(items + [it]) == CantidadTotal(items) + 1.0
  {
    var it := InvoiceItem(id, "", "", "UNI", 1.0, 0.0, Iva10);
    BlankLineKeepsSubtotals(items, it, Exentas);
    BlankLineKeepsSubtotals(items, it, Iva5);
    BlankLineKeepsSubtotals(items, it, Iva10);
    assert (items + [it])[..|items|] == items;
  }
}
