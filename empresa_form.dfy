/**
 * The company form: its field values, the validation that fills an error map field by
 * field, the edit handler that clears a field's error, the defaults taken from a company
 * being edited, and the cleanup of optional fields on submit. Website validation calls
 * the `URL` constructor, which is a parameter here (`urlOk`).
 */
module EmpresaForm {
  import opened Wrappers
  import opened Text
  import opened FormRules

  /** The form's values; every field is text while editing. */
  datatype EmpresaData = EmpresaData(
    razon_social: string, nombre_comercial: string, ruc: string, dv: string, direccion: string,
    telefono: string, email: string, website: string, logo_url: string, timbrado: string,
    vigencia_desde: string, vigencia_hasta: string, establecimiento: string, punto_expedicion: string)

  /** A company as the backend returns it; `None` is an absent optional property. */
  datatype Empresa = Empresa(
    razon_social: string, nombre_comercial: Option<string>, ruc: string, dv: string,
    direccion: Option<string>, telefono: Option<string>, email: Option<string>, website: Option<string>,
    logo_url: Option<string>, timbrado: Option<string>, vigencia_desde: Option<string>,
    vigencia_hasta: Option<string>, establecimiento: Option<string>, punto_expedicion: Option<string>)

  /** The data submitted, with cleaned optional fields. */
  datatype CrearEmpresaDTO = CrearEmpresaDTO(
    razon_social: string, nombre_comercial: Option<string>, ruc: string, dv: string,
    direccion: Option<string>, telefono: Option<string>, email: Option<string>, website: Option<string>,
    logo_url: Option<string>, timbrado: Option<string>, vigencia_desde: Option<string>,
    vigencia_hasta: Option<string>, establecimiento: Option<string>, punto_expedicion: Option<string>)

  datatype Field =
    | RazonSocial | NombreComercial | Ruc | Dv | Direccion | Telefono | Email | Website | LogoUrl
    | Timbrado | VigenciaDesde | VigenciaHasta | Establecimiento | PuntoExpedicion

  /** The property name of a field; the source keys its error map by these names. */
  function Key(f: Field): string {
    match f
    case RazonSocial => "razon_social"
    case NombreComercial => "nombre_comercial"
    case Ruc => "ruc"
    case Dv => "dv"
    case Direccion => "direccion"
    case Telefono => "telefono"
    case Email => "email"
    case Website => "website"
    case LogoUrl => "logo_url"
    case Timbrado => "timbrado"
    case VigenciaDesde => "vigencia_desde"
    case VigenciaHasta => "vigencia_hasta"
    case Establecimiento => "establecimiento"
    case PuntoExpedicion => "punto_expedicion"
  }

  function Get(d: EmpresaData, f: Field): string {
    match f
    case RazonSocial => d.razon_social
    case NombreComercial => d.nombre_comercial
    case Ruc => d.ruc
    case Dv => d.dv
    case Direccion => d.direccion
    case Telefono => d.telefono
    case Email => d.email
    case Website => d.website
    case LogoUrl => d.logo_url
    case Timbrado => d.timbrado
    case VigenciaDesde => d.vigencia_desde
    case VigenciaHasta => d.vigencia_hasta
    case Establecimiento => d.establecimiento
    case PuntoExpedicion => d.punto_expedicion
  }

  /** `{ ...prev, [field]: value }`. */
  function With(d: EmpresaData, f: Field, v: string): (r: EmpresaData)
    ensures Get(r, f) == v
    ensures forall g :: g != f ==> Get(r, g) == Get(d, g)
  {
    match f
    case RazonSocial => d.(razon_social := v)
    case NombreComercial => d.(nombre_comercial := v)
    case Ruc => d.(ruc := v)
    case Dv => d.(dv := v)
    case Direccion => d.(direccion := v)
    case Telefono => d.(telefono := v)
    case Email => d.(email := v)
    case Website => d.(website := v)
    case LogoUrl => d.(logo_url := v)
    case Timbrado => d.(timbrado := v)
    case VigenciaDesde => d.(vigencia_desde := v)
    case VigenciaHasta => d.(vigencia_hasta := v)
    case Establecimiento => d.(establecimiento := v)
    case PuntoExpedicion => d.(punto_expedicion := v)
  }

  /** A new company: every field empty but the establishment and the issue point, `001`. */
  const EmptyForm := EmpresaData("", "", "", "", "", "", "", "", "", "", "", "", "001", "001")

  /** The form filled from a company being edited; a falsy optional value becomes its default. */
  function FormOf(e: Empresa): (d: EmpresaData)
    ensures d.razon_social == e.razon_social && d.ruc == e.ruc && d.dv == e.dv
    ensures e.establecimiento.None? || e.establecimiento == Some("") ==> d.establecimiento == "001"
    ensures e.punto_expedicion.None? || e.punto_expedicion == Some("") ==> d.punto_expedicion == "001"
    ensures e.email.None? ==> d.email == ""
  {
    EmpresaData(e.razon_social, OrText(e.nombre_comercial, ""), e.ruc, e.dv, OrText(e.direccion, ""),
                OrText(e.telefono, ""), OrText(e.email, ""), OrText(e.website, ""), OrText(e.logo_url, ""),
                OrText(e.timbrado, ""), OrText(e.vigencia_desde, ""), OrText(e.vigencia_hasta, ""),
                OrText(e.establecimiento, "001"), OrText(e.punto_expedicion, "001"))
  }

  // ---------------------------------------------------------------------------
  // Validation
  // ---------------------------------------------------------------------------

  const RazonSocialObligatoria := "La razón social es obligatoria"
  const RucObligatorio := "El RUC es obligatorio"
  const RucLongitud := "El RUC debe tener 7 u 8 dígitos"
  const DvObligatorio := "El dígito verificador es obligatorio"
  const DvUnDigito := "El DV debe ser un solo dígito"
  const UrlInvalida := "Formato de URL inválido"

  /** `/^\d{7,8}$/`. */
  predicate RucPattern(s: string) { 7 <= |s| <= 8 && AllDigits(s) }

  /** `/^\d{1}$/`. */
  predicate DvPattern(s: string) { |s| == 1 && IsAsciiDigit(s[0]) }

  /** The RUC: required, then seven or eight digits. */
  function RucError(s: string): (r: Option<string>)
    ensures r.None? <==> RucPattern(s)
    ensures IsBlank(s) ==> r == Some(RucObligatorio)
    ensures !IsBlank(s) && !RucPattern(s) ==> r == Some(RucLongitud)
  {
    DigitsAreNotBlank(s);
    if IsBlank(s) then Some(RucObligatorio) else if !RucPattern(s) then Some(RucLongitud) else None
  }

  /** The check digit: required, then a single digit. */
  function DvError(s: string): (r: Option<string>)
    ensures r.None? <==> DvPattern(s)
    ensures IsBlank(s) ==> r == Some(DvObligatorio)
    ensures !IsBlank(s) && !DvPattern(s) ==> r == Some(DvUnDigito)
  {
    DigitsAreNotBlank(s);
    if IsBlank(s) then Some(DvObligatorio) else if !DvPattern(s) then Some(DvUnDigito) else None
  }

  /** `validate`'s error map, filled check by check. */
  method CollectErrors(d: EmpresaData, urlOk: string -> bool) returns (errors: map<Field, string>)
    ensures MessageOf(errors, RazonSocial) == RequiredError(d.razon_social, RazonSocialObligatoria)
    ensures MessageOf(errors, Ruc) == RucError(d.ruc)
    ensures MessageOf(errors, Dv) == DvError(d.dv)
    ensures MessageOf(errors, Email) == FormatError(d.email, EmailPattern(d.email), EmailInvalido)
    ensures MessageOf(errors, Website) == FormatError(d.website, urlOk(d.website), UrlInvalida)
    ensures errors.Keys <= {RazonSocial, Ruc, Dv, Email, Website}
  {
    errors := map[];
    var e := RequiredError(d.razon_social, RazonSocialObligatoria);
    if e.Some? {
      errors := errors[RazonSocial := e.value];
    }
    e := RucError(d.ruc);
    if e.Some? {
      errors := errors[Ruc := e.value];
    }
    e := DvError(d.dv);
    if e.Some? {
      errors := errors[Dv := e.value];
    }
    e := FormatError(d.email, EmailPattern(d.email), EmailInvalido);
    if e.Some? {
      errors := errors[Email := e.value];
    }
    e := FormatError(d.website, urlOk(d.website), UrlInvalida);
    if e.Some? {
      errors := errors[Website := e.value];
    }
  }

  /** The five checks, stated on their own. */
  predicate Passes(d: EmpresaData, urlOk: string -> bool) {
    && !IsBlank(d.razon_social) && RucPattern(d.ruc) && DvPattern(d.dv)
    && (IsBlank(d.email) || EmailPattern(d.email))
    && (IsBlank(d.website) || urlOk(d.website))
  }

  /** An error map holding the five checks' results is empty exactly when the form passes. */
  lemma NoErrorsIffPasses(d: EmpresaData, urlOk: string -> bool, errors: map<Field, string>)
    requires MessageOf(errors, RazonSocial) == RequiredError(d.razon_social, RazonSocialObligatoria)
    requires MessageOf(errors, Ruc) == RucError(d.ruc)
    requires MessageOf(errors, Dv) == DvError(d.dv)
    requires MessageOf(errors, Email) == FormatError(d.email, EmailPattern(d.email), EmailInvalido)
    requires MessageOf(errors, Website) == FormatError(d.website, urlOk(d.website), UrlInvalida)
    requires errors.Keys <= {RazonSocial, Ruc, Dv, Email, Website}
    ensures |errors| == 0 <==> Passes(d, urlOk)
  {
    if |errors| != 0 {
      var f :| f in errors;
      assert MessageOf(errors, f).Some?;
    }
  }

  // ---------------------------------------------------------------------------
  // Submission
  // ---------------------------------------------------------------------------

  /**
   * The object submitted: razón social, RUC and DV as typed; the other fields trimmed and
   * dropped when blank, except the validity dates, which are only dropped when empty.
   */
  function Cleanup(d: EmpresaData): CrearEmpresaDTO {
    CrearEmpresaDTO(d.razon_social, OptTrim(d.nombre_comercial), d.ruc, d.dv, OptTrim(d.direccion),
                    OptTrim(d.telefono), OptTrim(d.email), OptTrim(d.website), OptTrim(d.logo_url),
                    OptTrim(d.timbrado), NonEmpty(d.vigencia_desde), NonEmpty(d.vigencia_hasta),
                    OptTrim(d.establecimiento), OptTrim(d.punto_expedicion))
  }

  /** What is submitted is clean: submitting it again would change nothing. */
  lemma CleanupIsClean(d: EmpresaData)
    ensures var r := Cleanup(d);
            && Clean(r.nombre_comercial) && Clean(r.direccion) && Clean(r.telefono) && Clean(r.email)
            && Clean(r.website) && Clean(r.logo_url) && Clean(r.timbrado)
            && Clean(r.establecimiento) && Clean(r.punto_expedicion)
            && r.vigencia_desde != Some("") && r.vigencia_hasta != Some("")
  {
  }

  /** Every optional value of the company would survive a submit unchanged. */
  predicate CleanEmpresa(e: Empresa) {
    && Clean(e.nombre_comercial) && Clean(e.direccion) && Clean(e.telefono) && Clean(e.email)
    && Clean(e.website) && Clean(e.logo_url) && Clean(e.timbrado)
    && e.vigencia_desde != Some("") && e.vigencia_hasta != Some("")
    && Clean(e.establecimiento) && Clean(e.punto_expedicion)
  }

  /** What a company resubmitted untouched should be: its own values, `001` for a missing establishment or issue point. */
  function Resubmission(e: Empresa): CrearEmpresaDTO {
    CrearEmpresaDTO(e.razon_social, e.nombre_comercial, e.ruc, e.dv, e.direccion, e.telefono, e.email,
                    e.website, e.logo_url, e.timbrado, e.vigencia_desde, e.vigencia_hasta,
                    if e.establecimiento.None? then Some("001") else e.establecimiento,
                    if e.punto_expedicion.None? then Some("001") else e.punto_expedicion)
  }

  /** Opening a clean company and submitting it untouched sends back its own values. */
  lemma EditUntouchedRoundTrip(e: Empresa)
    requires CleanEmpresa(e)
    ensures Cleanup(FormOf(e)) == Resubmission(e)
  {
    OptionalFieldsKept(e);
    DefaultedFieldsKept(e);
    DatesKept(e.vigencia_desde);
    DatesKept(e.vigencia_hasta);
  }

  lemma OptionalFieldsKept(e: Empresa)
    requires CleanEmpresa(e)
    ensures var r := Cleanup(FormOf(e));
            && r.nombre_comercial == e.nombre_comercial && r.direccion == e.direccion
            && r.telefono == e.telefono && r.email == e.email && r.website == e.website
            && r.logo_url == e.logo_url && r.timbrado == e.timbrado
  {
    LoadThenTrim(e.nombre_comercial);
    LoadThenTrim(e.direccion);
    LoadThenTrim(e.telefono);
    LoadThenTrim(e.email);
    LoadThenTrim(e.website);
    LoadThenTrim(e.logo_url);
    LoadThenTrim(e.timbrado);
  }

  lemma DefaultedFieldsKept(e: Empresa)
    requires Clean(e.establecimiento) && Clean(e.punto_expedicion)
    ensures var r := Cleanup(FormOf(e));
            && r.establecimiento == (if e.establecimiento.None? then Some("001") else e.establecimiento)
            && r.punto_expedicion == (if e.punto_expedicion.None? then Some("001") else e.punto_expedicion)
  {
    assert Clean(Some("001")) by {
      assert "001"[0] == '0' && "001"[2] == '1';
    }
    LoadDefaultThenTrim(e.establecimiento, "001");
    LoadDefaultThenTrim(e.punto_expedicion, "001");
  }

  /** A date is loaded with `|| ""` and sent back with `|| undefined`. */
  lemma DatesKept(x: Option<string>)
    requires x != Some("")
    ensures NonEmpty(OrText(x, "")) == x
  {
  }

  // ---------------------------------------------------------------------------
  // The form state
  // ---------------------------------------------------------------------------

  class EmpresaFormState {
    var formData: EmpresaData
    var errors: map<Field, string>

    /** The initial state, filled from the company when one is being edited. */
    constructor(empresa: Option<Empresa>)
      ensures formData == (if empresa.Some? then FormOf(empresa.value) else EmptyForm) && errors == map[]
    {
      formData := if empresa.Some? then FormOf(empresa.value) else EmptyForm;
      errors := map[];
    }

    /** `handleChange`: the field takes the value and loses its error; other errors stay. */
    method HandleChange(f: Field, v: string)
      modifies this
      ensures formData == With(old(formData), f, v)
      ensures errors == ErrorsAfterChange(old(errors), f)
    {
      formData := With(formData, f, v);
      errors := ErrorsAfterChange(errors, f);
    }

    /** `validate`: the error map is replaced, and the form passes when it is empty. */
    method Validate(urlOk: string -> bool) returns (ok: bool)
      modifies this
      ensures ok <==> Passes(formData, urlOk)
      ensures ok <==> errors == map[]
      ensures MessageOf(errors, RazonSocial) == RequiredError(formData.razon_social, RazonSocialObligatoria)
      ensures MessageOf(errors, Ruc) == RucError(formData.ruc)
      ensures MessageOf(errors, Dv) == DvError(formData.dv)
      ensures MessageOf(errors, Email) == FormatError(formData.email, EmailPattern(formData.email), EmailInvalido)
      ensures MessageOf(errors, Website) == FormatError(formData.website, urlOk(formData.website), UrlInvalida)
      ensures errors.Keys <= {RazonSocial, Ruc, Dv, Email, Website}
      ensures formData == old(formData)
    {
      var newErrors := CollectErrors(formData, urlOk);
      NoErrorsIffPasses(formData, urlOk, newErrors);
      errors := newErrors;
      ok := |newErrors| == 0;
    }

    /** `handleSubmit`: nothing is submitted unless the form passes. */
    method Submit(urlOk: string -> bool) returns (submitted: Option<CrearEmpresaDTO>)
      modifies this
      ensures submitted.Some? <==> Passes(formData, urlOk)
      ensures submitted.Some? ==> submitted.value == Cleanup(formData)
      ensures MessageOf(errors, RazonSocial) == RequiredError(formData.razon_social, RazonSocialObligatoria)
      ensures MessageOf(errors, Ruc) == RucError(formData.ruc)
      ensures MessageOf(errors, Dv) == DvError(formData.dv)
      ensures MessageOf(errors, Email) == FormatError(formData.email, EmailPattern(formData.email), EmailInvalido)
      ensures MessageOf(errors, Website) == FormatError(formData.website, urlOk(formData.website), UrlInvalida)
      ensures errors.Keys <= {RazonSocial, Ruc, Dv, Email, Website}
      ensures formData == old(formData)
    {
      var ok := Validate(urlOk);
      if ok {
        submitted := Some(Cleanup(formData));
      } else {
        submitted := None;
      }
    }
  }
}
