/**
 * The records shared by the invoice composer, the search dialogs and the transformer that
 * builds the backend request: a client, an invoice line and a line before it has an id.
 * Amounts and quantities are exact reals; tax tags and unit labels are kept as text, since
 * the transformer also handles labels outside the sets the form offers.
 */
module InvoiceTypes {

  /** A client as the search dialog lists it and the composer keeps it. */
  datatype Client = Client(id: int, nombre: string, ruc: string, direccion: string, telefono: string,
                           email: string)

  /** A line without its id: what the product search hands to the composer. */
  datatype ItemDraft = ItemDraft(codigo: string, descripcion: string, unidad: string, cantidad: real,
                                 precio: real, tipoIva: string)

  /** A line of the invoice being composed. */
  datatype InvoiceItem = InvoiceItem(id: int, codigo: string, descripcion: string, unidad: string,
                                     cantidad: real, precio: real, tipoIva: string)

  /** `{ ...draft, id }`: the draft's fields under the given id. */
  function WithId(d: ItemDraft, id: int): (it: InvoiceItem)
    ensures it.id == id && DraftOf(it) == d
  {
    InvoiceItem(id, d.codigo, d.descripcion, d.unidad, d.cantidad, d.precio, d.tipoIva)
  }

  /** The fields of a line other than its id. */
  function DraftOf(it: InvoiceItem): ItemDraft {
    ItemDraft(it.codigo, it.descripcion, it.unidad, it.cantidad, it.precio, it.tipoIva)
  }

  /** The tax tag of a line exempt from IVA, and those of the 5 % and 10 % rates. */
  const Exentas := "exentas"
  const Iva5 := "iva5"
  const Iva10 := "iva10"
}
