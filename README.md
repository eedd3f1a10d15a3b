# factura_electronica: a verified model of the invoicing core

This project models the logic of an electronic-invoicing web application for Paraguay's
SIFEN system and proves properties of that model in Dafny. The modelled parts are:

- **The KuDE PDF endpoint** (`generarPdfDesdeXML.php`):
  - trimming of the posted XML to its `<rDE>…</rDE>` envelope;
  - extraction of the issuer, receiver, document, totals and items;
  - choice of the QR URL: the first `<dCarQR>` literal, then XPath, then the CDC consultation URL;
  - `normalizarUrlQr`, which repairs and rebuilds that URL;
  - the per-line tax column.
- **The invoice transformer**: the map from the composer's data to the backend record.
- **The unit and IVA helpers**.
- **The invoice composer page**: items, an id counter, the totals, the emit guard and the reset.
- **The invoice list page**: pagination, the page-button window and filters.
- **The company and client forms**: validation, the error map, loading and submit cleanup.
- **The product and customer search dialogs**.

One Dafny module stands for each source file. Four shared modules sit beside them:

- `Wrappers`: `Option` and `Result`.
- `Text`: string helpers modelling JavaScript's `trim`, `toLowerCase`, `toUpperCase` and `includes`, and PHP's `trim` and `strpos`.
- `InvoiceTypes`: the records the pages share.
- `FormRules`: the e-mail pattern, the error-map update and the optional-field cleanup that both forms use.

## How the model follows the code

- **Mutable state becomes classes.** Component state that handlers update in place is a class whose fields the methods change under `modifies`. The classes are `InvoiceComposer.Composer`, `Pagination.FacturasPage`, `EmpresaForm.EmpresaFormState` and `ClienteForm.ClienteFormState`. Each method's `ensures` states the whole new state in terms of specification functions. Lemmas about those functions state what the page promises.
- **Loops become methods.**
  - `normalizarUrlQr` rebinds its string step by step, and its two `foreach` loops fill the ordered parameters. These are methods proved equal to the pure pipeline `Rebuild(Backfill(Repair(raw)))`.
  - The item `foreach` of the PDF endpoint is a method, proved against `ItemsOf`.
  - A form's `validate` fills its error map check by check, in a method.
- **JavaScript's `||` is modelled literally.** A falsy override (`0`, `""`) falls back to the default. So `getIvaTipoCode("exentas")` is 2 and `getIvaPercentage("exentas")` is 10, because the tables' `0` is falsy. `ExemptFallsBackToTenPercent` states this.
- **The items branch follows the code.** `isset($gCamItem[0])` holds whenever at least one `gCamItem` exists. So the "one item" branch runs only when there is NO `gCamItem`, and it yields one blank item. `ItemsAgreeShape` states both cases.
- **The QR literal is looked up once.** Only the first `<dCarQR>…</dCarQR>` match is examined. When its content is PHP-empty (`""` or `"0"`), the XPath path is tried next; a later non-empty literal is never looked for. The first XPath node is used even when its text is empty.
- **The QR repair does not remove every `&amp;`.** The `&;+` step runs after the `&amp;` replacement, so the input `&;amp;` comes out as `&amp;` (`AmpEntityCanSurviveRepair`). What the repair does guarantee is proved in `RepairGuarantees`: no `&;`, no `;` before a parameter name and `=`, no `&&`, no `?&`, and no surrounding white space.
- **The normaliser is not claimed idempotent**, because the code does not promise it.
- **`parse_url("")` reports an empty path.** `$parts['path'] ?? '/consultas/qr'` keeps that empty string, so an empty or all-blank QR text normalises to the bare host `https://ekuatia.set.gov.py` (`BlankInputGivesSetHost`). Only a string that parses without a path gets `/consultas/qr`.
- **The QR pipeline works on PHP byte strings.** `asXML` and the XPath node text reach `normalizarUrlQr` as UTF-8 bytes. In the model a byte is a character below 256, and `Text.Utf8` turns the document's text into those bytes at the boundary, in `ExtraerQr` and in the CDC fallback. So `rawurlencode` escapes each byte: `é` becomes `%C3%A9` and `€` becomes `%E2%82%AC`.
- **`if (!$xml)` fails on more than malformed XML.** SimpleXML casts a root with no attributes, no child elements and only white-space text to false, so `<rDE></rDE>` is rejected as "XML inválido" too (`SimpleXmlFalsy`).
- **The clock, randomness and URL checks are parameters.**
  - `new Date().toISOString()` is the parameter `now`.
  - `Math.random()` is `draw`, with `0 <= draw < 1`.
  - The `new URL(...)` check on the company website is the predicate `urlOk`.
  - `simplexml_load_string` and `asXML` are the fields of an `XmlLibrary` parameter.
- **A form's error map is keyed by a field enumeration.** `Key` gives the property name the source uses.

## Where each source function is modelled

Each source function below is modelled by the definition named beside it. These definitions are the specification functions; the rows of the next section name the lemmas and methods whose contracts state what they compute.

- public/generarPdfDesdeXML.php:
  - `normalizarUrlQr` (7-55): `QrNormalizer.NormalizeUrlQr`, the composition of `QrRepair.Repair` (steps 1 to 3, lines 9-19), `QrNormalizer.Backfill` (step 4, lines 23-29) and `QrNormalizer.Rebuild` (step 5, lines 32-54). Inside step 5, `parse_url` is `QrNormalizer.ParseUrl` (line 32), `parse_str` is `QrNormalizer.ParseStr` (line 39), the two `foreach` loops are `QrNormalizer.Reorder` (lines 43-51) and `http_build_query` with `PHP_QUERY_RFC3986` is `QrNormalizer.BuildQuery` (line 53).
  - The envelope trimming (lines 98-110): `KudeExtractor.TrimEnvelope`.
  - The four arrays `$emisor`, `$receptor`, `$documento` and `$totales` (lines 122-196): `KudeExtractor.EmisorOf`, `ReceptorOf`, `DocumentoOf` and `TotalesOf`; `str_pad(..., 7, '0', STR_PAD_LEFT)` (line 148) is `KudeExtractor.PadLeft7`.
  - The item `foreach` (lines 164-174): `KudeExtractor.ItemsOf`, one `KudeExtractor.ItemOf` per element.
  - `extraerQRDelXML` (199-217): `KudeExtractor.ExtraerQr`.
  - `generarQRCompleto` (221-229): `KudeExtractor.GenerarQrCompleto`.
  - One row of the items table (lines 553-556): `KudeExtractor.FilaOf`.
- src/utils/invoiceTransformer.ts:
  - `generateRandomCode` (162-164): `InvoiceTransformer.RandomCode`.
- src/pages/GenerateInvoice.tsx:
  - `eliminarItem`, `actualizarItem` and `actualizarCantidad` (45-61): `InvoiceComposer.RemoveItems`, `UpdateItems` and `SteppedItems`.
  - `totalVenta`, `totalIva` and `cantidadTotal` (128-130): `InvoiceComposer.TotalVenta`, `TotalIva` and `CantidadTotal`.
  - The overrides `handleConfirmInvoice` passes (76-99): `InvoiceTransformer.ConfirmOverrides`.
- src/pages/Invoice.tsx:
  - The "Mostrando a de" line (274-276): `Pagination.RangeShown`.
  - The `pageNumber` choice (292-302): `Pagination.PageNumber`.
- src/components/Modals/ProductSearchModal.tsx:
  - `filteredProducts` (44-48): `SearchModals.FilteredProducts`.
  - `handleSelectProduct` (50-60): `SearchModals.SelectProduct`.
- src/components/Modals/CustomerSearchModal.tsx:
  - `filteredCustomers` (39-43): `SearchModals.FilteredCustomers`.
  - `handleSelectCustomer` (45-48): `SearchModals.SelectCustomer`.
- src/components/EmpresaForm.tsx:
  - The e-mail regular expression (line 97, also ClienteForm.tsx:111): `FormRules.EmailPattern`.
  - Reading `errors[field]` in the form: `FormRules.MessageOf`.
  - `dataToSubmit` (123-136): `EmpresaForm.Cleanup`.
- src/components/ClienteForm.tsx:
  - `dataToSubmit` (128-136): `ClienteForm.Cleanup`.

## Model

| member | source | states |
|---|---|---|
| QrRepair.DecodeWithoutAmpersand | public/generarPdfDesdeXML.php:9 | decoding entities leaves a text without `&` unchanged |
| QrRepair.RepairSemicolonSeparatorsAt | public/generarPdfDesdeXML.php:14 | position by position, a `;` followed by a parameter name and `=` becomes `&`, and every other character is kept |
| QrRepair.CollapseAmpSemicolonsClears | public/generarPdfDesdeXML.php:13 | after `&;+` is replaced, no `&` is directly followed by `;` |
| QrRepair.AmpSemicolonThen | public/generarPdfDesdeXML.php:13 | `&;` followed by a tail that never starts with `;` becomes `&` plus that tail |
| QrRepair.RepairSemicolonSeparatorsClears | public/generarPdfDesdeXML.php:14 | after the semicolon repair no `;` introduces a parameter, and no `&;` pair has appeared |
| QrRepair.StartsWithParamAfterRepair | public/generarPdfDesdeXML.php:14 | the look-ahead reaches the same verdict before and after the repair, so one pass is enough |
| QrRepair.CollapseAmpRunsClears | public/generarPdfDesdeXML.php:17 | after runs of `&` are collapsed no `&&` remains |
| QrRepair.CollapseAmpRunsKeepsNoAmpSemicolon | public/generarPdfDesdeXML.php:17 | collapsing `&` runs brings no `&;` pair back |
| QrRepair.CollapseAmpRunsKeepsNoSemicolonParam | public/generarPdfDesdeXML.php:17 | collapsing `&` runs brings no `;` before a parameter back |
| QrRepair.DropAmpAfterQuestionClears | public/generarPdfDesdeXML.php:18 | after `?&` becomes `?` no `?&` remains, and the three earlier guarantees still hold |
| QrRepair.TrimKeepsRepaired | public/generarPdfDesdeXML.php:19 | trimming keeps every cleared pair absent and leaves no surrounding white space |
| QrRepair.RepairGuarantees | public/generarPdfDesdeXML.php:9-19 | after steps 1 to 3 the string has no `&;`, no `;` before `name=`, no `&&`, no `?&` and no surrounding white space |
| QrRepair.CollapseAmpSemicolonsIdentity | public/generarPdfDesdeXML.php:13 | without an `&;` pair the `&;+` replacement changes nothing |
| QrRepair.RepairSemicolonSeparatorsIdentity | public/generarPdfDesdeXML.php:14 | without a `;` before a parameter the semicolon repair changes nothing |
| QrRepair.CollapseAmpRunsIdentity | public/generarPdfDesdeXML.php:17 | without `&&` collapsing changes nothing |
| QrRepair.DropAmpAfterQuestionIdentity | public/generarPdfDesdeXML.php:18 | without `?&` the replacement changes nothing |
| QrRepair.TrimWithoutEnds | public/generarPdfDesdeXML.php:19 | a string with no trimmable character at either end is its own trim |
| QrRepair.AmpEntityCanSurviveRepair | public/generarPdfDesdeXML.php:9-19 | the repair turns `&;amp;` into `&amp;`: the entity text can survive steps 1 to 3 |
| QrNormalizer.NormalizarUrlQr | public/generarPdfDesdeXML.php:7-55 | the step-by-step method on the byte string `raw` returns exactly `Rebuild(Backfill(Repair(raw)))` |
| QrNormalizer.RepairSteps | public/generarPdfDesdeXML.php:9-19 | the rebinding of `$s` through steps 1 to 3 equals the repair function |
| QrNormalizer.BackfillStep | public/generarPdfDesdeXML.php:23-29 | step 4 as written equals the backfill function |
| QrNormalizer.RebuildStep | public/generarPdfDesdeXML.php:32-54 | step 5 as written equals the rebuild function, which keeps the empty path `parse_url("")` reports |
| QrNormalizer.ReorderParams | public/generarPdfDesdeXML.php:43-51 | the two `foreach` loops produce the priority part followed by the other part |
| QrNormalizer.HasKeyInOrdered | public/generarPdfDesdeXML.php:49-50 | in the second loop a key is already placed exactly when it is one of the priority keys |
| QrNormalizer.Lookup | public/generarPdfDesdeXML.php:46 | a value is found exactly when the key is present, and it is stored under that key |
| QrNormalizer.RawUrlEncode | public/generarPdfDesdeXML.php:53 | every output character is unreserved or `%`, or a character of 256 or more, which is no PHP byte and is passed through |
| QrNormalizer.RawUrlEncodeOfBytes | public/generarPdfDesdeXML.php:53 | for a byte string the output holds only unreserved characters and `%` |
| QrNormalizer.EncodeTwoByteCharacter | public/generarPdfDesdeXML.php:53 | the UTF-8 bytes of `é` encode as `%C3%A9` |
| QrNormalizer.EncodeThreeByteCharacter | public/generarPdfDesdeXML.php:53 | the UTF-8 bytes of `€` encode as `%E2%82%AC` |
| QrNormalizer.DecodeRawUrlEncode | public/generarPdfDesdeXML.php:53 | URL-decoding the percent-encoding of any byte string, so of the UTF-8 bytes of any text, gives it back |
| QrNormalizer.ParseStrDistinct | public/generarPdfDesdeXML.php:39 | `parse_str` yields each key once and never the empty key |
| QrNormalizer.ParseStrBuildQuery | public/generarPdfDesdeXML.php:53 | parsing a built query gives back exactly the pairs, for distinct non-empty keys |
| QrNormalizer.BuildQueryTruthy | public/generarPdfDesdeXML.php:54 | the `?` and query are appended exactly when there are parameters |
| QrNormalizer.ReorderDistinct | public/generarPdfDesdeXML.php:43-51 | the reordered parameters hold each key once |
| QrNormalizer.ReorderPermutes | public/generarPdfDesdeXML.php:43-51 | the reordering keeps exactly the parsed pairs, as many of them: a permutation with values unchanged |
| QrNormalizer.ReorderPriorityFirst | public/generarPdfDesdeXML.php:43-47 | priority keys come first, in the order of the fixed list |
| QrNormalizer.ReorderKeepsOthersOrder | public/generarPdfDesdeXML.php:48-51 | the other keys follow, in the order the parsed query first listed them |
| QrNormalizer.UrlParses | public/generarPdfDesdeXML.php:32 | `scheme://host/path?query` parses into those four parts, with the query ending at `#` |
| QrNormalizer.SetBaseParses | public/generarPdfDesdeXML.php:27 | the SET base followed by any text parses with the SET scheme, host and path |
| QrNormalizer.BackfillSuppliesSetUrl | public/generarPdfDesdeXML.php:23-29 | without scheme or host but with `nVersion=`, the result parses as the SET URL whose query is the text with leading `?`/`&` stripped |
| QrNormalizer.BackfillKeeps | public/generarPdfDesdeXML.php:23-29 | a string with scheme and host, or without `nVersion=`, is left untouched |
| QrNormalizer.NormalizedQueryReadsBack | public/generarPdfDesdeXML.php:31-54 | the result is the base plus `?` and the reordered query exactly when there are parameters; that query reads back as those parameters, each key once |
| QrNormalizer.RebuildOfEmpty | public/generarPdfDesdeXML.php:32-36 | the empty string rebuilds to the SET scheme and host with the empty path `parse_url` reports, and no query |
| QrNormalizer.BlankRepairsToEmpty | public/generarPdfDesdeXML.php:9-19 | a text of PHP trim characters only repairs to the empty string |
| QrNormalizer.BlankInputGivesSetHost | public/generarPdfDesdeXML.php:7-55 | a text of PHP trim characters only normalises to the bare host `https://ekuatia.set.gov.py` |
| KudeExtractor.FirstNamedIsFirstFiltered | public/generarPdfDesdeXML.php:122-156 | reading `$n->name` gives the first child so named, and nothing when there is none |
| KudeExtractor.LeftmostShortest | public/generarPdfDesdeXML.php:100 | a match lies inside the payload, with its close after its open |
| KudeExtractor.LeftmostShortestFound | public/generarPdfDesdeXML.php:100 | the match starts at the leftmost `<rDE` and ends at the first `</rDE>` after it |
| KudeExtractor.LeftmostShortestAbsent | public/generarPdfDesdeXML.php:100 | no match means no opening delimiter is followed by a closing one |
| KudeExtractor.EnvelopeKeepsDocument | public/generarPdfDesdeXML.php:98-110 | when the payload has an `rDE` element, the kept text runs from the first `<rDE` to the first following `</rDE>`, inclusive |
| KudeExtractor.EnvelopeEndsAtFirstClose | public/generarPdfDesdeXML.php:107-110 | the kept text holds `</rDE>` at most once, at its very end |
| KudeExtractor.EnvelopeWithoutClose | public/generarPdfDesdeXML.php:98-110 | a payload without `</rDE>` is passed on unchanged |
| KudeExtractor.TrimEnvelopeCut | public/generarPdfDesdeXML.php:107-110 | the second step cuts the kept window after its first `</rDE>`, or keeps it whole |
| KudeExtractor.MatchedEnvelopeHasNoEarlierClose | public/generarPdfDesdeXML.php:100 | inside a matched envelope, the first `</rDE>` is the one that ends it |
| KudeExtractor.PadLeft7Shape | public/generarPdfDesdeXML.php:148 | at least seven characters, ending with the original, with only `0`s added in front |
| KudeExtractor.PadLeft7KeepsNumber | public/generarPdfDesdeXML.php:148 | padding a digit string keeps the number it denotes |
| KudeExtractor.PhpFloatDecimal | public/generarPdfDesdeXML.php:168-172 | `(float)` of `a.b` with digit strings a and b is a + b / 10^\|b\| |
| KudeExtractor.PhpFloatInteger | public/generarPdfDesdeXML.php:189-195 | `(float)` of a digit string is its value, and an empty field reads as 0 |
| KudeExtractor.MissingDocumentGivesBlankFields | public/generarPdfDesdeXML.php:122-196 | without a `DE` element every text is blank, the number is `0000000`, the exchange rate is `"1"`, the totals are 0 and there are no item elements |
| KudeExtractor.BlankItem | public/generarPdfDesdeXML.php:177-185 | the item read from a missing element has empty texts and zero amounts |
| KudeExtractor.ItemsOfPointwise | public/generarPdfDesdeXML.php:164-174 | the k-th record is read from the k-th `gCamItem` |
| KudeExtractor.ItemsAgreeShape | public/generarPdfDesdeXML.php:159-186 | the item list is never empty: one record per `gCamItem`, in document order, or the single blank record when there is none |
| KudeExtractor.LeerItems | public/generarPdfDesdeXML.php:164-174 | the `foreach` appends one record per element, in order |
| KudeExtractor.ExtraerItems | public/generarPdfDesdeXML.php:159-186 | the branch on `isset($gCamItem[0])` yields the item list described above |
| KudeExtractor.TaxColumnChoice | public/generarPdfDesdeXML.php:554-556 | the line total is shown in the column whose rate equals the item's rate (0, 5 or 10), and in no column for any other rate |
| KudeExtractor.ArmarFilas | public/generarPdfDesdeXML.php:553-556 | one row per item, in item order |
| KudeExtractor.CaptureFound | public/generarPdfDesdeXML.php:203 | the captured text sits between the delimiters at the leftmost opening one and contains no closing delimiter |
| KudeExtractor.CaptureMeaning | public/generarPdfDesdeXML.php:203 | a capture is found exactly when some opening delimiter is followed by a closing one |
| KudeExtractor.SelectQrSound | public/generarPdfDesdeXML.php:209 | the XPath selects only `dCarQR` elements |
| KudeExtractor.SelectQrFindsChildren | public/generarPdfDesdeXML.php:209 | every `dCarQR` child of a `gCamFuFD` element is selected |
| KudeExtractor.NormalizedUrlTruthy | public/generarPdfDesdeXML.php:223 | a normalised URL is never PHP-falsy, so an extracted QR always wins |
| KudeExtractor.QrSourceOrder | public/generarPdfDesdeXML.php:199-228 | the QR is the normalised first literal of the UTF-8 serialisation when that is non-empty, else the UTF-8 text of the first XPath node normalised, else the CDC consultation URL; never PHP-falsy |
| KudeExtractor.GenerarPdfDesdeXml | public/generarPdfDesdeXML.php:95-231 | fails with "XML inválido" exactly when the XML does not parse or its root is SimpleXML-false (no attributes, no child elements, blank text); otherwise the fields, items, rows and QR are the ones the functions above describe |
| InvoiceTransformer.NumberToString | src/utils/invoiceTransformer.ts:163 | `toString` of a natural number is a non-empty digit string |
| InvoiceTransformer.NumberToStringValue | src/utils/invoiceTransformer.ts:163 | reading the digits back gives the number |
| InvoiceTransformer.RandomCodeShape | src/utils/invoiceTransformer.ts:162-164 | the random code is six decimal digits, from 100000 to 999999 |
| InvoiceTransformer.UnidadMedidaCode | src/utils/invoiceTransformer.ts:169-179 | UNI, KG, L, M, M2 and M3 map to 77 through 82; every other label maps to 77 |
| InvoiceTransformer.UnitCodesDistinct | src/utils/invoiceTransformer.ts:169-179 | distinct unit codes get distinct numbers |
| InvoiceTransformer.MappedUnitCode | src/utils/invoiceTransformer.ts:169-179 | a label classified by `mapUnidadMedida` is always sent as its own number |
| InvoiceTransformer.IvaTipoCode | src/utils/invoiceTransformer.ts:184-191 | 1 exactly for `iva5`, 2 for every other tag |
| InvoiceTransformer.IvaPercentage | src/utils/invoiceTransformer.ts:196-203 | 5 exactly for `iva5`, 10 for every other tag |
| InvoiceTransformer.ExemptFallsBackToTenPercent | src/utils/invoiceTransformer.ts:184-203 | `exentas` goes out as code 2 and 10 %, like `iva10`, because the table's 0 is falsy |
| InvoiceTransformer.IvaPercentageOfType | src/utils/invoiceTransformer.ts:196-203 | a rate classified by `convertIvaToType` comes back as itself for 5 and 10, and as 10 for 0 |
| InvoiceTransformer.TransformCliente | src/utils/invoiceTransformer.ts:75-103 | names and contacts are copied; telefono fills both phone fields; documentoNumero is the RUC's digits; the location is the fixed Ciudad del Este / PRY set |
| InvoiceTransformer.RucDocumentNumber | src/utils/invoiceTransformer.ts:101 | a RUC of digits, a dash and a check digit is sent as all its digits, in order |
| InvoiceTransformer.TransformItem | src/utils/invoiceTransformer.ts:109-124 | one wire line: codes from the lookup tables, ivaBase 100, cambio, descuento and anticipo 0, country PRY |
| InvoiceTransformer.TransformItems | src/utils/invoiceTransformer.ts:108-125 | one wire line per line, same length and order |
| InvoiceTransformer.TransformCondicion | src/utils/invoiceTransformer.ts:130-145 | tipo 1 with exactly one delivery: tipo 1, the whole sale total, PYG, cambio 0 |
| InvoiceTransformer.CondicionIgnoresPago | src/utils/invoiceTransformer.ts:130-145 | the chosen payment condition does not affect the result |
| InvoiceTransformer.TransformToCompleteInvoiceStructure | src/utils/invoiceTransformer.ts:14-78 | fails with "Cliente es requerido" exactly when there is no client; otherwise factura is presencia 1 with the record's own fecha, and cliente, items and condicion are the transforms above |
| InvoiceTransformer.DefaultsWithoutOverrides | src/utils/invoiceTransformer.ts:40-63 | without overrides every field takes its static default, the clock reading and the random code |
| InvoiceTransformer.FalsyOverridesAreIgnored | src/utils/invoiceTransformer.ts:40-57 | overrides of `0` and `""` give the same record as no overrides |
| InvoiceTransformer.TruthyOverridesWin | src/utils/invoiceTransformer.ts:40-63 | for each of the 18 fields, a truthy override is kept as given, whatever the other overrides are |
| InvoiceTransformer.FalsyOverridesTakeDefaults | src/utils/invoiceTransformer.ts:40-63 | for each of the 18 fields, an absent or falsy override gives that field's default (the clock for `fecha`, the random code for the security code), whatever the other overrides are |
| InvoiceTransformer.ConfirmOverridesAreDefaults | src/pages/GenerateInvoice.tsx:76-99 | the composer's explicit overrides only restate the defaults: the record depends only on the code and the date it passes |
| UnitHelpers.MapUnidadMedida | src/lib/utils.ts:21-47 | the result is always one of UNI, KG, L, M, M2, M3 |
| UnitHelpers.ClassifyName | src/lib/utils.ts:32-46 | the name rules always give one of the six codes |
| UnitHelpers.LongLabelByName | src/lib/utils.ts:24-32 | a label longer than every code is classified by the name rules alone |
| UnitHelpers.CaseVariantUpper | src/lib/utils.ts:24 | any case variant of a code upper-cases to that code |
| UnitHelpers.CaseVariantIsCode | src/lib/utils.ts:24-29 | any case variant of a code is returned as the upper-case code |
| UnitHelpers.MapUnidadMedidaIdempotent | src/lib/utils.ts:21-47 | classifying a classified label changes nothing |
| UnitHelpers.KilogramoExample | src/lib/utils.ts:17 | `Kilogramo` is KG |
| UnitHelpers.UnidadExample | src/lib/utils.ts:19 | `Unidad` is UNI |
| UnitHelpers.MetroCuadradoExample | src/lib/utils.ts:35-36 | `metro cuadrado` is M2 |
| UnitHelpers.MetroCubicoExample | src/lib/utils.ts:35-41 | `metro cúbico` is M3 |
| UnitHelpers.ConvertIvaToType | src/lib/utils.ts:60-64 | `exentas` iff 0, `iva5` iff 5, `iva10` for every other rate |
| InvoiceTypes.WithId | src/pages/GenerateInvoice.tsx:66-69 | the product's fields under the given id |
| InvoiceComposer.Applied | src/pages/GenerateInvoice.tsx:51 | the edited field takes the value; the id and every other field are kept |
| InvoiceComposer.RemoveMembers | src/pages/GenerateInvoice.tsx:46 | the kept lines are exactly the lines without the id |
| InvoiceComposer.RemoveAppend | src/pages/GenerateInvoice.tsx:46 | filtering works piece by piece, so the order is kept |
| InvoiceComposer.RemoveAbsent | src/pages/GenerateInvoice.tsx:46 | removing an id that no line has changes nothing |
| InvoiceComposer.RemoveUnique | src/pages/GenerateInvoice.tsx:46 | with distinct ids, removing a line's id removes that line alone and keeps the rest in order |
| InvoiceComposer.RemoveKeepsDistinct | src/pages/GenerateInvoice.tsx:46 | removal keeps ids distinct |
| InvoiceComposer.UpdateItemsSpec | src/pages/GenerateInvoice.tsx:49-53 | the lines with the id get the edit, and every other line stays as it was, in place |
| InvoiceComposer.UpdateKeepsIds | src/pages/GenerateInvoice.tsx:49-53 | an edit keeps the ids distinct and below the counter |
| InvoiceComposer.FindFirstSpec | src/pages/GenerateInvoice.tsx:56 | `find` gives the first line with the id, and nothing exactly when no line has it |
| InvoiceComposer.SteppedQuantity | src/pages/GenerateInvoice.tsx:55-61 | the stepped line alone gets `max(0, q + cambio)`; every other line and field is kept |
| InvoiceComposer.SteppedUnknown | src/pages/GenerateInvoice.tsx:55-61 | stepping an unknown id changes nothing |
| InvoiceComposer.Subtotal | src/pages/GenerateInvoice.tsx:112-123 | an unknown tag, or a tag no line has, gives 0 |
| InvoiceComposer.SubtotalAppend | src/pages/GenerateInvoice.tsx:112-123 | the subtotal of two lists of lines is the sum of their subtotals |
| InvoiceComposer.TotalVentaIsTaggedAmount | src/pages/GenerateInvoice.tsx:125-128 | the sale total counts every line tagged exentas, iva5 or iva10 exactly once, and no other line |
| InvoiceComposer.BlankLineKeepsSubtotals | src/pages/GenerateInvoice.tsx:112-123 | a line priced 0 adds nothing to any subtotal |
| InvoiceComposer.TotalIvaAppend | src/pages/GenerateInvoice.tsx:129 | the IVA total is additive over lists of lines |
| InvoiceComposer.CantidadTotalAppend | src/pages/GenerateInvoice.tsx:130 | the quantity total is additive over lists of lines |
| InvoiceComposer.EmitGuard | src/pages/GenerateInvoice.tsx:132-141 | the "no item" alert when there are no lines, else the "no client" alert when no client is selected, else no alert |
| InvoiceComposer.EmitAllowsTransform | src/pages/GenerateInvoice.tsx:132-143 | once the guard lets an invoice through, building its record cannot fail |
| InvoiceComposer.AgregarItemTotals | src/pages/GenerateInvoice.tsx:31-43 | adding a blank line keeps the sale total and adds one to the quantity total |
| InvoiceComposer.Composer.constructor | src/pages/GenerateInvoice.tsx:22-29 | no lines, no client, counter 1, `Contado`, dialog closed |
| InvoiceComposer.Composer.Data | src/pages/GenerateInvoice.tsx:145-157 | the lines, the client and the totals of the lines |
| InvoiceComposer.Composer.AppendWithFreshId | src/pages/GenerateInvoice.tsx:41-42 | appends the line under the current counter, then advances it; ids stay distinct and below the counter |
| InvoiceComposer.Composer.AgregarItem | src/pages/GenerateInvoice.tsx:31-43 | appends exactly one blank line (UNI, quantity 1, price 0, iva10) with id = counter, and advances the counter |
| InvoiceComposer.Composer.SelectProduct | src/pages/GenerateInvoice.tsx:65-72 | appends the product under the counter and advances it |
| InvoiceComposer.Composer.EliminarItem | src/pages/GenerateInvoice.tsx:45-47 | the lines become the filtered lines; nothing else changes |
| InvoiceComposer.Composer.ActualizarItem | src/pages/GenerateInvoice.tsx:49-53 | the lines become the updated lines; nothing else changes |
| InvoiceComposer.Composer.ActualizarCantidad | src/pages/GenerateInvoice.tsx:55-61 | the lines become the stepped lines; nothing else changes |
| InvoiceComposer.Composer.SelectCustomer | src/pages/GenerateInvoice.tsx:63 | the client is set; nothing else changes |
| InvoiceComposer.Composer.EmitirFactura | src/pages/GenerateInvoice.tsx:132-143 | returns the guard's alert, and opens the dialog exactly when there is none |
| InvoiceComposer.Composer.ConfirmInvoice | src/pages/GenerateInvoice.tsx:74-110 | builds the record from the page's data; on success the page resets to no client, no lines and counter 1 |
| InvoiceComposer.Composer.Reset | src/pages/GenerateInvoice.tsx:106-109 | no client, no lines, counter 1, dialog closed |
| Pagination.PageWindow | src/pages/Invoice.tsx:292 | the window has `min(5, totalPaginas)` buttons |
| Pagination.WindowConsecutive | src/pages/Invoice.tsx:293-302 | the buttons are consecutive ascending pages |
| Pagination.WindowInRange | src/pages/Invoice.tsx:294-302 | every button is a page from 1 to `totalPaginas` |
| Pagination.WindowShowsCurrent | src/pages/Invoice.tsx:294-302 | an existing current page always has its button |
| Pagination.SmallWindowIsAllPages | src/pages/Invoice.tsx:294-295 | with five pages or fewer every page has a button |
| Pagination.RangeWithinResults | src/pages/Invoice.tsx:274-275 | on a page holding results the range lies within 1..total and spans at most one page |
| Pagination.RangesAdjacent | src/pages/Invoice.tsx:274-275 | consecutive full pages show adjacent ranges |
| Pagination.RequestFor | src/pages/Invoice.tsx:39-45 | the given page and limit win over the current ones, even when falsy, because of the spread; sorted by `fechaCreacion` DESC |
| Pagination.FilterParams | src/pages/Invoice.tsx:91-104 | page 1 with limit 10; `todos` and empty texts mean no filter |
| Pagination.FilterRequestsFirstPage | src/pages/Invoice.tsx:89-104 | filtering always asks for the first page of ten, with no estado exactly when `todos` was chosen |
| Pagination.PreviousOf | src/pages/Invoice.tsx:119 | `max(1, p - 1)` |
| Pagination.FacturasPage.constructor | src/pages/Invoice.tsx:26-33 | page 1, loading, no totals, no next or previous page |
| Pagination.FacturasPage.StartLoad | src/pages/Invoice.tsx:37-45 | loading starts and the request is built from the parameters and the current page |
| Pagination.FacturasPage.Loaded | src/pages/Invoice.tsx:67-76 | the answer's pagination is taken over and loading ends |
| Pagination.FacturasPage.LoadFailed | src/pages/Invoice.tsx:73-76 | only loading ends |
| Pagination.FacturasPage.PageChange | src/pages/Invoice.tsx:112-115 | moves to the page and requests it |
| Pagination.FacturasPage.PreviousPage | src/pages/Invoice.tsx:117-122 | moves to `max(1, p - 1)` exactly when there is a previous page and nothing is loading, else changes nothing |
| Pagination.FacturasPage.NextPage | src/pages/Invoice.tsx:124-129 | moves to `p + 1` exactly when there is a next page and nothing is loading, else changes nothing |
| Pagination.FacturasPage.Filter | src/pages/Invoice.tsx:84-105 | back to page 1, requesting the filtered first page |
| Pagination.FacturasPage.Clear | src/pages/Invoice.tsx:107-110 | back to page 1, requesting it without filters |
| Text.BlankIffTrimEmpty | src/components/EmpresaForm.tsx:79 | `!s.trim()` holds exactly when the text is all white space |
| Text.TrimKeepsTrimmed | src/components/EmpresaForm.tsx:125 | a text with no white space at either end is its own trim |
| Text.IndexOf | public/generarPdfDesdeXML.php:108 | `strpos`: nothing exactly when the text does not occur, else its first occurrence |
| Text.NonEmpty | src/components/EmpresaForm.tsx:132 | `s \|\| undefined`: only the empty text is dropped, and nothing is trimmed |
| Text.DigitsOnly | src/utils/invoiceTransformer.ts:101 | the result holds digits only, and is no longer than the input |
| Text.DigitsOnlyOfDigits | src/utils/invoiceTransformer.ts:101 | a digit string is kept whole |
| Text.Utf8Char | public/generarPdfDesdeXML.php:201 | one character becomes one to four bytes; ASCII exactly stays itself, and every other character becomes bytes of 0x80 or more |
| Text.Utf8CharWellFormed | public/generarPdfDesdeXML.php:201 | the lead byte announces the length, the rest are continuation bytes, and the bytes decode back to the character |
| Text.Utf8 | public/generarPdfDesdeXML.php:201-210 | the UTF-8 form of a text is a byte string at least as long as the text |
| Text.Utf8OfAscii | public/generarPdfDesdeXML.php:201-210 | an ASCII text is its own UTF-8 form |
| Text.Utf8Concat | public/generarPdfDesdeXML.php:201-210 | the UTF-8 form of a concatenation is the concatenation of the UTF-8 forms |
| FormRules.EmailPatternMeaning | src/components/EmpresaForm.tsx:97 | the pattern holds exactly when there is no white space, one `@` after at least one character, and a dot inside the domain |
| FormRules.RequiredError | src/components/EmpresaForm.tsx:79-81 | the message exactly when the text is blank |
| FormRules.FormatError | src/components/EmpresaForm.tsx:96-100 | the message exactly when the text is not blank and fails the format |
| FormRules.DigitsAreNotBlank | src/components/EmpresaForm.tsx:83-87 | a non-empty digit string is never blank, so the format check decides |
| FormRules.ErrorsAfterChange | src/components/EmpresaForm.tsx:67-73 | the edited field keeps no message, and every other entry is unchanged |
| FormRules.OptTrim | src/components/EmpresaForm.tsx:125 | `x?.trim() \|\| undefined`: dropped exactly when blank, else the trimmed text |
| FormRules.LoadThenTrim | src/components/EmpresaForm.tsx:47 | a clean optional value loaded with `\|\| ""` and cleaned again comes back unchanged |
| FormRules.LoadDefaultThenTrim | src/components/EmpresaForm.tsx:58 | loaded with a default, an absent value comes back as the default |
| EmpresaForm.With | src/components/EmpresaForm.tsx:65 | the edited field takes the value, and the others are kept |
| EmpresaForm.FormOf | src/components/EmpresaForm.tsx:43-62 | the required fields are copied; establecimiento and punto default to `001`; other absent fields become `""` |
| EmpresaForm.RucError | src/components/EmpresaForm.tsx:83-87 | none exactly for seven or eight digits; "obligatorio" when blank; the length message otherwise |
| EmpresaForm.DvError | src/components/EmpresaForm.tsx:89-93 | none exactly for one digit; "obligatorio" when blank; the single-digit message otherwise |
| EmpresaForm.CollectErrors | src/components/EmpresaForm.tsx:76-110 | each of the five fields holds the message its check gives, and no other field holds one |
| EmpresaForm.NoErrorsIffPasses | src/components/EmpresaForm.tsx:111-112 | the map is empty exactly when all five checks pass |
| EmpresaForm.CleanupIsClean | src/components/EmpresaForm.tsx:123-136 | every submitted optional value is absent or trimmed and non-empty; the dates are never `""` |
| EmpresaForm.EditUntouchedRoundTrip | src/components/EmpresaForm.tsx:45-136 | a clean company, opened and submitted untouched, sends back its own values, `001` filling a missing establishment or issue point |
| EmpresaForm.OptionalFieldsKept | src/components/EmpresaForm.tsx:47-131 | the optional fields of a clean company come back unchanged after loading and cleanup |
| EmpresaForm.DefaultedFieldsKept | src/components/EmpresaForm.tsx:58-135 | a missing establishment or issue point comes back as `001`, and a present one unchanged |
| EmpresaForm.DatesKept | src/components/EmpresaForm.tsx:132-133 | a date loaded with `\|\| ""` and sent with `\|\| undefined` comes back the same |
| EmpresaForm.EmpresaFormState.constructor | src/components/EmpresaForm.tsx:24-62 | the empty form or the loaded company, with no errors |
| EmpresaForm.EmpresaFormState.HandleChange | src/components/EmpresaForm.tsx:64-74 | the field takes the value and loses its error; other errors stay |
| EmpresaForm.EmpresaFormState.Validate | src/components/EmpresaForm.tsx:76-113 | the stored map holds, for each of the five fields, the message its check gives and nothing else; true exactly when the checks pass, exactly when that map is empty |
| EmpresaForm.EmpresaFormState.Submit | src/components/EmpresaForm.tsx:115-139 | stores the same per-field messages as `validate`; submits exactly when the form passes, with the cleaned-up object |
| ClienteForm.With | src/components/ClienteForm.tsx:67 | the edited text field takes the value, and the others and `tiene_ruc` are kept |
| ClienteForm.FormOf | src/components/ClienteForm.tsx:49-64 | name, kind of person and `tiene_ruc` are copied; the phone country defaults to `PY`; other absent fields become `""` |
| ClienteForm.CiError | src/components/ClienteForm.tsx:85-90 | checked only for a natural person: blank is "obligatoria", else one to eight digits |
| ClienteForm.RucError | src/components/ClienteForm.tsx:92-107 | none exactly for a well-formed RUC, or for a blank one from a natural person without `tiene_ruc`; otherwise the message of the check that failed last |
| ClienteForm.RucCheck | src/components/ClienteForm.tsx:92-107 | the required check then the format check, in source order, give the outcome above |
| ClienteForm.RucDashIsNotBlank | src/components/ClienteForm.tsx:103-105 | a RUC matching the digits-dash-digit pattern is never blank |
| ClienteForm.CollectErrors | src/components/ClienteForm.tsx:78-115 | name, cédula, RUC and e-mail each hold their check's message, and no other field holds one |
| ClienteForm.NoErrorsIffPasses | src/components/ClienteForm.tsx:116-117 | the map is empty exactly when every check passes |
| ClienteForm.JuridicaNeedsRuc | src/components/ClienteForm.tsx:95-107 | a legal person passes exactly with a name, a well-formed RUC and a valid or blank e-mail; no cédula is needed |
| ClienteForm.CleanupIsClean | src/components/ClienteForm.tsx:128-136 | every submitted optional value is absent or trimmed and non-empty; the birth date is never `""` |
| ClienteForm.EditUntouchedRoundTrip | src/components/ClienteForm.tsx:49-136 | a clean client, opened and submitted untouched, sends back its own values, `PY` filling a missing phone country |
| ClienteForm.ClienteFormState.constructor | src/components/ClienteForm.tsx:34-64 | the empty form or the loaded client, with no errors |
| ClienteForm.ClienteFormState.HandleChange | src/components/ClienteForm.tsx:66-76 | the field takes the value and loses its error; other errors stay |
| ClienteForm.ClienteFormState.ToggleTieneRuc | src/components/ClienteForm.tsx:193-197 | `tiene_ruc` becomes 1 or 0; the errors are unchanged, since none is ever stored under it |
| ClienteForm.ClienteFormState.Validate | src/components/ClienteForm.tsx:78-118 | the stored map holds the name, cédula, RUC and e-mail messages their checks give and nothing else; true exactly when the checks pass, exactly when that map is empty |
| ClienteForm.ClienteFormState.Submit | src/components/ClienteForm.tsx:120-139 | stores the same per-field messages as `validate`; submits exactly when the form passes, with the cleaned-up object |
| SearchModals.FilterMembers | src/components/Modals/ProductSearchModal.tsx:44 | `filter` keeps an element exactly when it is listed and passes |
| SearchModals.FilterIsSubsequence | src/components/Modals/ProductSearchModal.tsx:44 | the filtered list is a subsequence of the list |
| SearchModals.FilteredProductsSpec | src/components/Modals/ProductSearchModal.tsx:44-48 | a product is shown exactly when its lower-cased code or description contains the lower-cased term, in list order |
| SearchModals.EmptyTermShowsAllProducts | src/components/Modals/ProductSearchModal.tsx:44-48 | an empty term shows every product |
| SearchModals.DraftFor | src/components/Modals/ProductSearchModal.tsx:51-58 | the product's code, description, unit, price and tax tag, with quantity 1 |
| SearchModals.SelectedProductLine | src/components/Modals/ProductSearchModal.tsx:50-59 | once the composer gives it an id, the selected line costs the product's price |
| SearchModals.ProductSearchExample | src/components/Modals/ProductSearchModal.tsx:20-48 | `PROD` lists the two products and not the service |
| SearchModals.FilteredCustomersSpec | src/components/Modals/CustomerSearchModal.tsx:39-43 | a customer is shown exactly when its lower-cased name contains the lower-cased term, or its RUC contains the term as typed, in list order |
| SearchModals.EmptyTermShowsAllCustomers | src/components/Modals/CustomerSearchModal.tsx:39-43 | an empty term shows every customer |
| SearchModals.CustomerSearchExample | src/components/Modals/CustomerSearchModal.tsx:20-43 | `EJEMPLO 2` finds the second customer only: the name match ignores case |

## Left out

- Floating point: amounts and quantities are exact reals. JavaScript's binary floating point, `toFixed` and `toLocaleString`, and PHP's `number_format` are not modelled.
- KudeExtractor.PhpFloat: reads only sign, digits and an optional fraction. PHP's `(float)` also reads an exponent (`"1e3"` is 1000.0), which the model reads as 1; the documents use plain decimal notation.
- `totalIva` (`subtotal5 * 0.05 + subtotal10 * 0.1`) is computed on exact reals, so its rounding is not modelled.
- `NaN` and `Infinity` are not modelled: `Math.max` and the `||` fallbacks for a non-numeric quantity are outside the model.
- Case mapping covers the one-to-one pairs of Basic Latin and Latin-1 only. JavaScript's full Unicode `toLowerCase` and `toUpperCase` rules are left out; in particular `Text.UpperChar` keeps `ÿ`, `µ` and `ß`, which JavaScript upper-cases to `Ÿ`, `Μ` and `SS`.
- `html_entity_decode` is modelled on the five XML entities only, because numeric character references are library behaviour.
- `parse_url` is modelled on the shapes the normaliser meets: scheme, host, path and query. Port, user, fragment parsing and PHP's malformed-URL cases are left out, and so is the replacement of each control character in a returned component by `_`; the model keeps such a character.
- `parse_str` key mangling of `.`, spaces and `[]` is not modelled.
- `simplexml_load_string`, `asXML` and XPath are abstract: a parse function given as a parameter, and the XML as a tree datatype. Namespaces, CDATA, comments and the element tree around `gCamFuFD` are not modelled. So the SimpleXML false test ignores namespace filtering and counts every attribute and child element. For the same reason `KudeExtractor.XPathQr` finds `gCamFuFD/dCarQR` wherever it sits, while PHP's unprefixed `//gCamFuFD/dCarQR` selects nothing in a document that declares a default namespace, as SIFEN documents do. For such a document with an empty `<dCarQR>` PHP falls back to the CDC URL, and the model returns the bare SET host.
- Rendering and the PDF are left out because they are I/O: mPDF, HTML and CSS, `htmlspecialchars`, `DateTime` formatting, `error_log`, CORS, and the request plumbing of lines 65-84 (the `OPTIONS` answer, the `?test` page and the 400 answer to a request without `xmlConQR`). The endpoint ends with the extracted record or the "XML inválido" failure; that failure carries the status 500 the `catch` block sets (`InvalidXml`), and the success path ends before the PDF headers are sent.
- The request body is read as text, not bytes. Trimming the envelope and parsing are modelled on characters; the document's text becomes UTF-8 bytes (`Text.Utf8`) only where the QR code is built. A character of 256 or more never reaches `rawurlencode` on that path; `EncodeChar` keeps such a character unchanged.
- `new URL(website)` is the parameter `urlOk`, because the URL library's grammar is not part of this model.
- `new Date()` and `Math.random()` are the parameters `now` and `draw`.
- Network calls, `alert`, `console.log` and `onSubmit` callbacks are left out because they are I/O. The composer returns the alert text. The forms return the object they would submit.
- `loadDocumentos` is asynchronous. It is modelled as two steps, `StartLoad` and then `Loaded` or `LoadFailed`. Interleavings of concurrent loads are left out.
- InvoiceComposer.Composer.ActualizarItem: takes an `Edit` with one constructor per editable field. An edit of `id` and a value of the wrong type (`valor: any`) are left out.
- The lookup tables of `invoiceTransformer.ts` are read as plain maps. Inherited `Object.prototype` keys such as `constructor` or `toString` are not modelled as table hits.
- ClienteForm.ClienteFormState.HandleChange: `handleChange(field, value: any)` is split in two. Text fields go through `HandleChange`, and the `tiene_ruc` check box through `ToggleTieneRuc`. Other value types are left out.
- `setIsProductModalOpen`, `setIsCustomerModalOpen` and `setCondicionPago` are plain setters and are not modelled. Dialog visibility and the payment condition only feed rendering; `CondicionIgnoresPago` shows the condition never reaches the record.
- `getDefaultUsuario` is a constant record, `DefaultUsuario`.
- src/interfaces/clientes.ts is not part of this model. `Cliente` and `CrearClienteDTO` follow the fields `ClienteForm.tsx` reads and writes.
