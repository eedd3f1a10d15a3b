/**
 * The map from the composer's invoice data to the complete record the backend expects.
 * Every override is combined with its default through JavaScript's `||`, so an override
 * that is falsy (absent, `0` or `""`) yields the default, and lookup tables whose entry is
 * `0` fall back the same way. The clock and the random draw are parameters.
 */
module InvoiceTransformer {
  import opened Wrappers
  import opened Text
  import opened InvoiceTypes
  import opened UnitHelpers

  // ---------------------------------------------------------------------------
  // JavaScript truthiness
  // ---------------------------------------------------------------------------

  /** `x || d` for an optional integer-valued number: absent and `0` give `d`. */
  function OrInt(x: Option<int>, d: int): int { if x.Some? && x.value != 0 then x.value else d }

  /** `x || d` for an optional number. */
  function OrReal(x: Option<real>, d: real): real { if x.Some? && x.value != 0.0 then x.value else d }

  // ---------------------------------------------------------------------------
  // The wire record
  // ---------------------------------------------------------------------------

  datatype Usuario = Usuario(documentoTipo: int, documentoNumero: string, nombre: string, cargo: string)

  /** The optional overrides a caller may pass; `None` is an absent property. */
  datatype AdditionalData = AdditionalData(
    tipoDocumento: Option<int>, establecimiento: Option<string>, punto: Option<string>,
    numero: Option<int>, codigoSeguridadAleatorio: Option<string>, descripcion: Option<string>,
    observacion: Option<string>, fecha: Option<string>, tipoEmision: Option<int>,
    tipoTransaccion: Option<int>, tipoImpuesto: Option<int>, moneda: Option<string>,
    condicionAnticipo: Option<int>, condicionTipoCambio: Option<real>, descuentoGlobal: Option<real>,
    anticipoGlobal: Option<real>, cambio: Option<string>, usuario: Option<Usuario>)

  datatype Totales = Totales(cantidadTotal: real, subtotalExentas: real, subtotal5: real, subtotal10: real,
                             totalVenta: real, totalIva: real)

  /** The composer's data: the chosen client (if any), the payment condition, the lines and totals. */
  datatype FacturaData = FacturaData(cliente: Option<Client>, condicionPago: string, items: seq<InvoiceItem>,
                                     totales: Totales)

  datatype InvoiceCliente = InvoiceCliente(
    contribuyente: bool, razonSocial: string, tipoOperacion: int, tipoContribuyente: int,
    direccion: string, numeroCasa: string, departamento: int, departamentoDescripcion: string,
    distrito: int, distritoDescripcion: string, ciudad: int, ciudadDescripcion: string,
    pais: string, paisDescripcion: string, telefono: string, celular: string, email: string,
    codigo: string, ruc: string, documentoTipo: int, documentoNumero: string)

  datatype Entrega = Entrega(tipo: int, monto: real, moneda: string, cambio: real)

  datatype Condicion = Condicion(tipo: int, entregas: seq<Entrega>)

  datatype ItemApi = ItemApi(
    codigo: string, descripcion: string, observacion: string, unidadMedida: int, cantidad: real,
    precioUnitario: real, cambio: real, descuento: real, anticipo: real, pais: string,
    paisDescripcion: string, ivaTipo: int, ivaBase: int, iva: int)

  datatype FacturaInfo = FacturaInfo(presencia: int, fecha: string)

  datatype CompleteInvoice = CompleteInvoice(
    tipoDocumento: int, establecimiento: string, punto: string, numero: int,
    codigoSeguridadAleatorio: string, descripcion: string, observacion: string, fecha: string,
    tipoEmision: int, tipoTransaccion: int, tipoImpuesto: int, moneda: string,
    condicionAnticipo: int, condicionTipoCambio: real, descuentoGlobal: real, anticipoGlobal: real,
    cambio: string, factura: FacturaInfo, cliente: InvoiceCliente, usuario: Usuario,
    condicion: Condicion, items: seq<ItemApi>)

  const ClienteRequerido := "Cliente es requerido"

  const DefaultUsuario := Usuario(1, "157264", "Juan Pérez", "Vendedor")

  // ---------------------------------------------------------------------------
  // The random security code
  // ---------------------------------------------------------------------------

  function DigitChar(d: nat): char
    requires d < 10
  {
    ('0' as int + d) as char
  }

  /** `n.toString()` for a non-negative integer: its decimal digits without leading zeros. */
  function NumberToString(n: nat): (r: string)
    ensures |r| >= 1 && AllDigits(r)
    decreases n
  {
    if n < 10 then [DigitChar(n)] else NumberToString(n / 10) + [DigitChar(n % 10)]
  }

  /** Reading the digits back gives the number. */
  lemma {:induction false} NumberToStringValue(n: nat)
    ensures DigitsValue(NumberToString(n)) == n
    decreases n
  {
    var r := NumberToString(n);
    if n >= 10 {
      NumberToStringValue(n / 10);
      assert r[..|r| - 1] == NumberToString(n / 10);
    }
  }

  /** A number with `k` digits is written with `k` characters. */
  lemma {:induction false} NumberToStringLength(n: nat, k: nat)
    requires k >= 1 && Pow10(k - 1) <= n < Pow10(k)
    ensures |NumberToString(n)| == k
    decreases k
  {
    if k > 1 {
      assert Pow10(k - 1) == 10 * Pow10(k - 2);
      NumberToStringLength(n / 10, k - 1);
    }
  }

  /** `Math.floor(100000 + draw * 900000).toString()` for a draw of `Math.random()`. */
  function RandomCode(draw: real): string
    requires 0.0 <= draw < 1.0
  {
    var n := (100000.0 + draw * 900000.0).Floor;
    assert n >= 100000;
    NumberToString(n)
  }

  /** The generated code is six decimal digits, 100000 to 999999. */
  lemma RandomCodeShape(draw: real)
    requires 0.0 <= draw < 1.0
    ensures |RandomCode(draw)| == 6 && AllDigits(RandomCode(draw))
    ensures 100000 <= DigitsValue(RandomCode(draw)) <= 999999
  {
    var n := (100000.0 + draw * 900000.0).Floor;
    assert 100000 <= n < 1000000;
    assert Pow10(5) == 100000 && Pow10(6) == 1000000;
    NumberToStringLength(n, 6);
    NumberToStringValue(n);
  }

  // ---------------------------------------------------------------------------
  // Lookup tables
  // ---------------------------------------------------------------------------

  const UnidadMap: map<string, int> := map["UNI" := 77, "KG" := 78, "L" := 79, "M" := 80, "M2" := 81, "M3" := 82]
  const IvaTipoMap: map<string, int> := map["exentas" := 0, "iva5" := 1, "iva10" := 2]
  const IvaPercentageMap: map<string, int> := map["exentas" := 0, "iva5" := 5, "iva10" := 10]

  /** `table[key] || fallback`: a missing key or a `0` entry gives the fallback. */
  function Lookup(table: map<string, int>, key: string, fallback: int): int {
    if key in table && table[key] != 0 then table[key] else fallback
  }

  /** `getUnidadMedidaCode`: the six unit codes are 77 to 82 in order; any other label is 77. */
  function UnidadMedidaCode(unidad: string): (r: int)
    ensures 77 <= r <= 82
    ensures forall k :: 0 <= k < |UnitCodes| && UnitCodes[k] == unidad ==> r == 77 + k
    ensures unidad !in UnitCodes ==> r == 77
  {
    Lookup(UnidadMap, unidad, 77)
  }

  /** `getIvaTipoCode`: 1 for `iva5` and 2 for everything else, `exentas` included. */
  function IvaTipoCode(tipoIva: string): (r: int)
    ensures r == 1 <==> tipoIva == Iva5
    ensures r == 2 <==> tipoIva != Iva5
  {
    Lookup(IvaTipoMap, tipoIva, 2)
  }

  /** `getIvaPercentage`: 5 for `iva5` and 10 for everything else, `exentas` included. */
  function IvaPercentage(tipoIva: string): (r: int)
    ensures r == 5 <==> tipoIva == Iva5
    ensures r == 10 <==> tipoIva != Iva5
  {
    Lookup(IvaPercentageMap, tipoIva, 10)
  }

  /** An exempt line goes out as a 10 % line: the table's `0` is falsy. */
  lemma ExemptFallsBackToTenPercent()
    ensures IvaTipoCode(Exentas) == 2 && IvaPercentage(Exentas) == 10
    ensures IvaTipoCode(Iva10) == 2 && IvaPercentage(Iva10) == 10
  {
  }

  /** A percentage classified by `convertIvaToType` comes back as itself for 5 and 10, and as 10 for 0. */
  lemma IvaPercentageOfType(p: real)
    ensures p == 5.0 || p == 10.0 ==> IvaPercentage(ConvertIvaToType(p)) as real == p
    ensures p == 0.0 ==> IvaPercentage(ConvertIvaToType(p)) == 10
    ensures IvaTipoCode(ConvertIvaToType(p)) == (if p == 5.0 then 1 else 2)
  {
  }

  /** Distinct unit codes get distinct numbers, so a classified unit is never confused with another. */
  lemma UnitCodesDistinct(u: string, v: string)
    requires u in UnitCodes && v in UnitCodes && u != v
    ensures UnidadMedidaCode(u) != UnidadMedidaCode(v)
  {
  }

  /** A classified label is always sent as its own code number. */
  lemma MappedUnitCode(unidad: Option<string>)
    ensures var c := MapUnidadMedida(unidad);
            exists k :: 0 <= k < |UnitCodes| && UnitCodes[k] == c && UnidadMedidaCode(c) == 77 + k
  {
    var c := MapUnidadMedida(unidad);
    var k :| 0 <= k < |UnitCodes| && UnitCodes[k] == c;
    assert UnidadMedidaCode(c) == 77 + k;
  }

  // ---------------------------------------------------------------------------
  // The parts of the record
  // ---------------------------------------------------------------------------

  /** `transformCliente` on a present client: names and contacts copied, the rest fixed. */
  function TransformCliente(c: Client): (r: InvoiceCliente)
    ensures r.razonSocial == c.nombre && r.direccion == c.direccion && r.email == c.email
    ensures r.telefono == c.telefono && r.celular == c.telefono
    ensures r.ruc == c.ruc && r.documentoNumero == DigitsOnly(c.ruc) && AllDigits(r.documentoNumero)
    ensures r.departamento == 11 && r.distrito == 173 && r.ciudad == 4278 && r.pais == "PRY"
  {
    InvoiceCliente(
      contribuyente := true, razonSocial := OrText(Some(c.nombre), ""), tipoOperacion := 1,
      tipoContribuyente := 2, direccion := OrText(Some(c.direccion), ""), numeroCasa := "0",
      departamento := 11, departamentoDescripcion := "ALTO PARANA", distrito := 173,
      distritoDescripcion := "CIUDAD DEL ESTE", ciudad := 4278, ciudadDescripcion := "CIUDAD DEL ESTE",
      pais := "PRY", paisDescripcion := "Paraguay", telefono := OrText(Some(c.telefono), ""),
      celular := OrText(Some(c.telefono), ""), email := OrText(Some(c.email), ""), codigo := "026",
      ruc := OrText(Some(c.ruc), ""), documentoTipo := 1, documentoNumero := OrText(Some(DigitsOnly(c.ruc)), ""))
  }

  /** A RUC written as digits, a dash and a check digit is sent as the digits alone. */
  lemma {:induction false} RucDocumentNumber(a: string, b: string)
    requires AllDigits(a) && AllDigits(b)
    ensures DigitsOnly(a + "-" + b) == a + b
  {
    DigitsOnlyConcat(a + "-", b);
    DigitsOnlyConcat(a, "-");
    DigitsOnlyOfDigits(a);
    DigitsOnlyOfDigits(b);
    assert DigitsOnly("-") == [] by { assert "-"[1..] == []; }
  }

  /** One line on the wire. */
  function TransformItem(it: InvoiceItem): (r: ItemApi)
    ensures r.codigo == it.codigo && r.descripcion == it.descripcion && r.observacion == ""
    ensures r.cantidad == it.cantidad && r.precioUnitario == it.precio
    ensures r.cambio == 0.0 && r.descuento == 0.0 && r.anticipo == 0.0 && r.ivaBase == 100
    ensures r.pais == "PRY" && r.paisDescripcion == "Paraguay"
    ensures r.unidadMedida == UnidadMedidaCode(it.unidad)
    ensures r.ivaTipo == IvaTipoCode(it.tipoIva) && r.iva == IvaPercentage(it.tipoIva)
  {
    ItemApi(
      codigo := OrText(Some(it.codigo), ""), descripcion := OrText(Some(it.descripcion), ""),
      observacion := "", unidadMedida := UnidadMedidaCode(it.unidad),
      cantidad := OrReal(Some(it.cantidad), 0.0), precioUnitario := OrReal(Some(it.precio), 0.0),
      cambio := 0.0, descuento := 0.0, anticipo := 0.0, pais := "PRY", paisDescripcion := "Paraguay",
      ivaTipo := IvaTipoCode(it.tipoIva), ivaBase := 100, iva := IvaPercentage(it.tipoIva))
  }

  /** `transformItems`: one wire line per line, in the same order. */
  function TransformItems(items: seq<InvoiceItem>): (r: seq<ItemApi>)
    ensures |r| == |items| && forall k :: 0 <= k < |items| ==> r[k] == TransformItem(items[k])
    decreases |items|
  {
    if items == [] then [] else [TransformItem(items[0])] + TransformItems(items[1..])
  }

  /** `transformCondicion`: a cash condition with one delivery of the whole sale. */
  function TransformCondicion(condicionPago: string, totalVenta: real): (r: Condicion)
    ensures r.tipo == 1 && |r.entregas| == 1
    ensures r.entregas[0] == Entrega(1, totalVenta, "PYG", 0.0)
  {
    Condicion(1, [Entrega(1, totalVenta, "PYG", 0.0)])
  }

  /** The payment condition chosen in the form does not reach the record. */
  lemma CondicionIgnoresPago(p: string, q: string, totalVenta: real)
    ensures TransformCondicion(p, totalVenta) == TransformCondicion(q, totalVenta)
  {
  }

  // ---------------------------------------------------------------------------
  // The whole record
  // ---------------------------------------------------------------------------

  /**
   * `transformToCompleteInvoiceStructure`, given the clock reading `now` (ISO text) and the
   * random draw; a missing client is the thrown "Cliente es requerido".
   */
  function TransformToCompleteInvoiceStructure(f: FacturaData, a: AdditionalData, now: string, draw: real)
    : (r: Result<CompleteInvoice, string>)
    requires 0.0 <= draw < 1.0
    ensures r.Failure? <==> f.cliente.None?
    ensures r.Failure? ==> r.error == ClienteRequerido
    ensures r.Success? ==> r.value.factura == FacturaInfo(1, r.value.fecha)
    ensures r.Success? ==> r.value.cliente == TransformCliente(f.cliente.value)
    ensures r.Success? ==> r.value.items == TransformItems(f.items)
    ensures r.Success? ==> r.value.condicion == TransformCondicion(f.condicionPago, f.totales.totalVenta)
  {
    if f.cliente.None? then Failure(ClienteRequerido)
    else
      var fecha := OrText(a.fecha, now);
      Success(CompleteInvoice(
        tipoDocumento := OrInt(a.tipoDocumento, 1),
        establecimiento := OrText(a.establecimiento, "001"),
        punto := OrText(a.punto, "001"),
        numero := OrInt(a.numero, 10),
        codigoSeguridadAleatorio := OrText(a.codigoSeguridadAleatorio, RandomCode(draw)),
        descripcion := OrText(a.descripcion, "Factura electrónica"),
        observacion := OrText(a.observacion, ""),
        fecha := fecha,
        tipoEmision := OrInt(a.tipoEmision, 1),
        tipoTransaccion := OrInt(a.tipoTransaccion, 2),
        tipoImpuesto := OrInt(a.tipoImpuesto, 1),
        moneda := OrText(a.moneda, "PYG"),
        condicionAnticipo := OrInt(a.condicionAnticipo, 0),
        condicionTipoCambio := OrReal(a.condicionTipoCambio, 0.0),
        descuentoGlobal := OrReal(a.descuentoGlobal, 0.0),
        anticipoGlobal := OrReal(a.anticipoGlobal, 0.0),
        cambio := OrText(a.cambio, ""),
        factura := FacturaInfo(1, OrText(a.fecha, now)),
        cliente := TransformCliente(f.cliente.value),
        usuario := if a.usuario.Some? then a.usuario.value else DefaultUsuario,
        condicion := TransformCondicion(f.condicionPago, f.totales.totalVenta),
        items := TransformItems(f.items)))
  }

  /** No overrides at all. */
  const NoOverrides := AdditionalData(None, None, None, None, None, None, None, None, None, None, None, None,
                                      None, None, None, None, None, None)

  /** Every override present but falsy: `0` for numbers, `""` for text. */
  const FalsyOverrides := AdditionalData(Some(0), Some(""), Some(""), Some(0), Some(""), Some(""), Some(""),
                                         Some(""), Some(0), Some(0), Some(0), Some(""), Some(0), Some(0.0),
                                         Some(0.0), Some(0.0), Some(""), None)

  /** Without overrides every field takes its static default, the clock and the random code. */
  lemma DefaultsWithoutOverrides(f: FacturaData, now: string, draw: real)
    requires 0.0 <= draw < 1.0 && f.cliente.Some?
    ensures var r := TransformToCompleteInvoiceStructure(f, NoOverrides, now, draw);
            && r.Success?
            && r.value.tipoDocumento == 1 && r.value.establecimiento == "001" && r.value.punto == "001"
            && r.value.numero == 10 && r.value.codigoSeguridadAleatorio == RandomCode(draw)
            && r.value.descripcion == "Factura electrónica" && r.value.observacion == ""
            && r.value.fecha == now && r.value.tipoEmision == 1 && r.value.tipoTransaccion == 2
            && r.value.tipoImpuesto == 1 && r.value.moneda == "PYG" && r.value.condicionAnticipo == 0
            && r.value.condicionTipoCambio == 0.0 && r.value.descuentoGlobal == 0.0
            && r.value.anticipoGlobal == 0.0 && r.value.cambio == "" && r.value.usuario == DefaultUsuario
  {
  }

  /** Falsy overrides are as good as none: `||` discards `0` and `""`. */
  lemma FalsyOverridesAreIgnored(f: FacturaData, now: string, draw: real)
    requires 0.0 <= draw < 1.0
    ensures TransformToCompleteInvoiceStructure(f, FalsyOverrides, now, draw)
         == TransformToCompleteInvoiceStructure(f, NoOverrides, now, draw)
  {
  }

  /** JavaScript truthiness of an optional override: present, and not `0` or `""`. */
  predicate TruthyInt(x: Option<int>) { x.Some? && x.value != 0 }

  predicate TruthyReal(x: Option<real>) { x.Some? && x.value != 0.0 }

  predicate TruthyText(x: Option<string>) { x.Some? && x.value != "" }

  /** Each truthy override is kept as given, whatever the other fields hold. */
  lemma TruthyOverridesWin(f: FacturaData, a: AdditionalData, now: string, draw: real)
    requires 0.0 <= draw < 1.0 && f.cliente.Some?
    ensures var r := TransformToCompleteInvoiceStructure(f, a, now, draw).value;
            && (TruthyInt(a.tipoDocumento) ==> r.tipoDocumento == a.tipoDocumento.value)
            && (TruthyText(a.establecimiento) ==> r.establecimiento == a.establecimiento.value)
            && (TruthyText(a.punto) ==> r.punto == a.punto.value)
            && (TruthyInt(a.numero) ==> r.numero == a.numero.value)
            && (TruthyText(a.codigoSeguridadAleatorio) ==> r.codigoSeguridadAleatorio == a.codigoSeguridadAleatorio.value)
            && (TruthyText(a.descripcion) ==> r.descripcion == a.descripcion.value)
            && (TruthyText(a.observacion) ==> r.observacion == a.observacion.value)
            && (TruthyText(a.fecha) ==> r.fecha == a.fecha.value && r.factura.fecha == a.fecha.value)
            && (TruthyInt(a.tipoEmision) ==> r.tipoEmision == a.tipoEmision.value)
            && (TruthyInt(a.tipoTransaccion) ==> r.tipoTransaccion == a.tipoTransaccion.value)
            && (TruthyInt(a.tipoImpuesto) ==> r.tipoImpuesto == a.tipoImpuesto.value)
            && (TruthyText(a.moneda) ==> r.moneda == a.moneda.value)
            && (TruthyInt(a.condicionAnticipo) ==> r.condicionAnticipo == a.condicionAnticipo.value)
            && (TruthyReal(a.condicionTipoCambio) ==> r.condicionTipoCambio == a.condicionTipoCambio.value)
            && (TruthyReal(a.descuentoGlobal) ==> r.descuentoGlobal == a.descuentoGlobal.value)
            && (TruthyReal(a.anticipoGlobal) ==> r.anticipoGlobal == a.anticipoGlobal.value)
            && (TruthyText(a.cambio) ==> r.cambio == a.cambio.value)
            && (a.usuario.Some? ==> r.usuario == a.usuario.value)
  {
  }

  /** Each absent or falsy override gives that field's default, whatever the other fields hold. */
  lemma FalsyOverridesTakeDefaults(f: FacturaData, a: AdditionalData, now: string, draw: real)
    requires 0.0 <= draw < 1.0 && f.cliente.Some?
    ensures var r := TransformToCompleteInvoiceStructure(f, a, now, draw).value;
            && (!TruthyInt(a.tipoDocumento) ==> r.tipoDocumento == 1)
            && (!TruthyText(a.establecimiento) ==> r.establecimiento == "001")
            && (!TruthyText(a.punto) ==> r.punto == "001")
            && (!TruthyInt(a.numero) ==> r.numero == 10)
            && (!TruthyText(a.codigoSeguridadAleatorio) ==> r.codigoSeguridadAleatorio == RandomCode(draw))
            && (!TruthyText(a.descripcion) ==> r.descripcion == "Factura electrónica")
            && (!TruthyText(a.observacion) ==> r.observacion == "")
            && (!TruthyText(a.fecha) ==> r.fecha == now && r.factura.fecha == now)
            && (!TruthyInt(a.tipoEmision) ==> r.tipoEmision == 1)
            && (!TruthyInt(a.tipoTransaccion) ==> r.tipoTransaccion == 2)
            && (!TruthyInt(a.tipoImpuesto) ==> r.tipoImpuesto == 1)
            && (!TruthyText(a.moneda) ==> r.moneda == "PYG")
            && (!TruthyInt(a.condicionAnticipo) ==> r.condicionAnticipo == 0)
            && (!TruthyReal(a.condicionTipoCambio) ==> r.condicionTipoCambio == 0.0)
            && (!TruthyReal(a.descuentoGlobal) ==> r.descuentoGlobal == 0.0)
            && (!TruthyReal(a.anticipoGlobal) ==> r.anticipoGlobal == 0.0)
            && (!TruthyText(a.cambio) ==> r.cambio == "")
            && (a.usuario.None? ==> r.usuario == DefaultUsuario)
  {
  }

  /** The overrides the composer passes when an invoice is confirmed. */
  function ConfirmOverrides(code: string, fecha: string): AdditionalData {
    AdditionalData(Some(1), Some("001"), Some("001"), Some(10), Some(code), Some("Factura electrónica"),
                   Some(""), Some(fecha), Some(1), Some(2), Some(1), Some("PYG"), Some(0), Some(0.0),
                   Some(0.0), Some(0.0), Some(""), None)
  }

  /**
   * The composer's explicit overrides only restate the defaults: the record is the one
   * built from the security code and the date alone.
   */
  lemma ConfirmOverridesAreDefaults(f: FacturaData, code: string, fecha: string, now: string, draw: real)
    requires 0.0 <= draw < 1.0 && code != "" && fecha != ""
    ensures TransformToCompleteInvoiceStructure(f, ConfirmOverrides(code, fecha), now, draw)
         == TransformToCompleteInvoiceStructure(f, NoOverrides.(codigoSeguridadAleatorio := Some(code), fecha := Some(fecha)), now, draw)
  {
  }
}
