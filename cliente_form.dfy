/**
 * The client form: its values, `validate` (whose RUC rules depend on whether the client is a
 * natural or a legal person, and whose format check overrides the "required" messages),
 * the edit handler, the defaults taken from a client being edited, and the submit cleanup.
 */
module ClienteForm {
  import opened Wrappers
  import opened Text
  import opened FormRules

  /** The form's values (`CrearClienteDTO` while editing: every optional field held as text). */
  datatype ClienteData = ClienteData(
    nombre: string, tipo_persona: string, ci: string, fecha_nacimiento: string, tiene_ruc: int,
    ruc: string, telefono: string, pais_telefono: string, direccion: string, email: string)

  /** A client as the backend returns it; `None` is an absent optional property. */
  datatype Cliente = Cliente(
    nombre: string, tipo_persona: string, ci: Option<string>, fecha_nacimiento: Option<string>,
    tiene_ruc: int, ruc: Option<string>, telefono: Option<string>, pais_telefono: Option<string>,
    direccion: Option<string>, email: Option<string>)

  /** The data submitted, with cleaned optional fields. */
  datatype CrearClienteDTO = CrearClienteDTO(
    nombre: string, tipo_persona: string, ci: Option<string>, fecha_nacimiento: Option<string>,
    tiene_ruc: int, ruc: Option<string>, telefono: Option<string>, pais_telefono: string,
    direccion: Option<string>, email: Option<string>)

  /** The fields the form edits as text; `tiene_ruc` is a check box and is set on its own. */
  datatype Field =
    | Nombre | TipoPersona | Ci | FechaNacimiento | Ruc | Telefono | PaisTelefono | Direccion | Email

  /** The property name of a field; the source keys its error map by these names. */
  function Key(f: Field): string {
    match f
    case Nombre => "nombre"
    case TipoPersona => "tipo_persona"
    case Ci => "ci"
    case FechaNacimiento => "fecha_nacimiento"
    case Ruc => "ruc"
    case Telefono => "telefono"
    case PaisTelefono => "pais_telefono"
    case Direccion => "direccion"
    case Email => "email"
  }

  function Get(d: ClienteData, f: Field): string {
    match f
    case Nombre => d.nombre
    case TipoPersona => d.tipo_persona
    case Ci => d.ci
    case FechaNacimiento => d.fecha_nacimiento
    case Ruc => d.ruc
    case Telefono => d.telefono
    case PaisTelefono => d.pais_telefono
    case Direccion => d.direccion
    case Email => d.email
  }

  /** `{ ...prev, [field]: value }`. */
  function With(d: ClienteData, f: Field, v: string): (r: ClienteData)
    ensures Get(r, f) == v && r.tiene_ruc == d.tiene_ruc
    ensures forall g :: g != f ==> Get(r, g) == Get(d, g)
  {
    match f
    case Nombre => d.(nombre := v)
    case TipoPersona => d.(tipo_persona := v)
    case Ci => d.(ci := v)
    case FechaNacimiento => d.(fecha_nacimiento := v)
    case Ruc => d.(ruc := v)
    case Telefono => d.(telefono := v)
    case PaisTelefono => d.(pais_telefono := v)
    case Direccion => d.(direccion := v)
    case Email => d.(email := v)
  }

  /** A new client: a natural person without RUC, phone country `PY`, everything else empty. */
  const EmptyForm := ClienteData("", "fisica", "", "", 0, "", "", "PY", "", "")

  /** The form filled from a client being edited; a falsy optional value becomes its default. */
  function FormOf(c: Cliente): (d: ClienteData)
    ensures d.nombre == c.nombre && d.tipo_persona == c.tipo_persona && d.tiene_ruc == c.tiene_ruc
    ensures c.pais_telefono.None? || c.pais_telefono == Some("") ==> d.pais_telefono == "PY"
    ensures c.ruc.None? ==> d.ruc == ""
  {
    ClienteData(c.nombre, c.tipo_persona, OrText(c.ci, ""), OrText(c.fecha_nacimiento, ""), c.tiene_ruc,
                OrText(c.ruc, ""), OrText(c.telefono, ""), OrText(c.pais_telefono, "PY"),
                OrText(c.direccion, ""), OrText(c.email, ""))
  }

  // ---------------------------------------------------------------------------
  // Validation
  // ---------------------------------------------------------------------------

  const NombreObligatorio := "El nombre es obligatorio"
  const CiObligatoria := "La cédula es obligatoria para personas físicas"
  const CiFormato := "La cédula debe contener solo números (máx. 8 dígitos)"
  const RucSiMarcado := "El RUC es obligatorio si 'tiene RUC' está marcado"
  const RucJuridica := "El RUC es obligatorio para personas jurídicas"
  const RucFormato := "Formato de RUC inválido (ejemplo: 80012345-6)"

  /** `/^\d{1,8}$/`. */
  predicate CiPattern(s: string) { 1 <= |s| <= 8 && AllDigits(s) }

  /** `/^\d{7,8}-\d{1}$/`: seven or eight digits, a dash, one check digit. */
  predicate RucDashPattern(s: string) {
    && 9 <= |s| <= 10 && AllDigits(s[..|s| - 2]) && s[|s| - 2] == '-' && IsAsciiDigit(s[|s| - 1])
  }

  lemma RucDashIsNotBlank(s: string)
    ensures RucDashPattern(s) ==> !IsBlank(s)
  {
    if RucDashPattern(s) {
      assert s[|s| - 2] == '-';
    }
  }

  /** The cédula is only checked for a natural person: required, then one to eight digits. */
  function CiError(tipo: string, ci: string): (r: Option<string>)
    ensures r.None? <==> tipo != "fisica" || CiPattern(ci)
    ensures tipo == "fisica" && IsBlank(ci) ==> r == Some(CiObligatoria)
    ensures tipo == "fisica" && !IsBlank(ci) && !CiPattern(ci) ==> r == Some(CiFormato)
  {
    DigitsAreNotBlank(ci);
    if tipo != "fisica" then None
    else if IsBlank(ci) then Some(CiObligatoria)
    else if !CiPattern(ci) then Some(CiFormato)
    else None
  }

  /**
   * The RUC's outcome. A RUC that holds more than white space must match the pattern,
   * whatever the kind of person; a blank one is accepted only for a natural person whose
   * `tiene_ruc` box is not checked.
   */
  function RucError(tipo: string, tieneRuc: int, ruc: string): (r: Option<string>)
    ensures r.None? <==> RucDashPattern(ruc) || (IsBlank(ruc) && tipo == "fisica" && tieneRuc != 1)
    ensures !IsBlank(ruc) && !RucDashPattern(ruc) ==> r == Some(RucFormato)
    ensures IsBlank(ruc) && tipo == "fisica" && tieneRuc == 1 ==> r == Some(RucSiMarcado)
    ensures IsBlank(ruc) && tipo != "fisica" ==> r == Some(RucJuridica)
  {
    RucDashIsNotBlank(ruc);
    if !IsBlank(ruc) then (if RucDashPattern(ruc) then None else Some(RucFormato))
    else if tipo != "fisica" then Some(RucJuridica)
    else if tieneRuc == 1 then Some(RucSiMarcado)
    else None
  }

  /**
   * The RUC's part of `validate`, in the source's order: the "required" message chosen by
   * kind of person, then the format check, which replaces it.
   */
  method RucCheck(d: ClienteData) returns (m: Option<string>)
    ensures m == RucError(d.tipo_persona, d.tiene_ruc, d.ruc)
  {
    m := None;
    if d.tipo_persona == "fisica" {
      if d.tiene_ruc == 1 && IsBlank(d.ruc) {
        m := Some(RucSiMarcado);
      }
    } else {
      if IsBlank(d.ruc) {
        m := Some(RucJuridica);
      }
    }
    if d.ruc != "" && !IsBlank(d.ruc) {
      if !RucDashPattern(d.ruc) {
        m := Some(RucFormato);
      }
    }
  }

  /** `validate`'s error map: the name, the cédula, the RUC and the e-mail, each under its field. */
  method CollectErrors(d: ClienteData) returns (errors: map<Field, string>)
    ensures MessageOf(errors, Nombre) == RequiredError(d.nombre, NombreObligatorio)
    ensures MessageOf(errors, Ci) == CiError(d.tipo_persona, d.ci)
    ensures MessageOf(errors, Ruc) == RucError(d.tipo_persona, d.tiene_ruc, d.ruc)
    ensures MessageOf(errors, Email) == FormatError(d.email, EmailPattern(d.email), EmailInvalido)
    ensures errors.Keys <= {Nombre, Ci, Ruc, Email}
  {
    errors := map[];
    var m := RequiredError(d.nombre, NombreObligatorio);
    if m.Some? {
      errors := errors[Nombre := m.value];
    }
    m := CiError(d.tipo_persona, d.ci);
    if m.Some? {
      errors := errors[Ci := m.value];
    }
    m := RucCheck(d);
    if m.Some? {
      errors := errors[Ruc := m.value];
    }
    m := FormatError(d.email, EmailPattern(d.email), EmailInvalido);
    if m.Some? {
      errors := errors[Email := m.value];
    }
  }

  /** The checks, stated on their own. */
  predicate Passes(d: ClienteData) {
    && !IsBlank(d.nombre)
    && (d.tipo_persona == "fisica" ==> CiPattern(d.ci))
    && (RucDashPattern(d.ruc) || (IsBlank(d.ruc) && d.tipo_persona == "fisica" && d.tiene_ruc != 1))
    && (IsBlank(d.email) || EmailPattern(d.email))
  }

  /** An error map holding the checks' results is empty exactly when the form passes. */
  lemma NoErrorsIffPasses(d: ClienteData, errors: map<Field, string>)
    requires MessageOf(errors, Nombre) == RequiredError(d.nombre, NombreObligatorio)
    requires MessageOf(errors, Ci) == CiError(d.tipo_persona, d.ci)
    requires MessageOf(errors, Ruc) == RucError(d.tipo_persona, d.tiene_ruc, d.ruc)
    requires MessageOf(errors, Email) == FormatError(d.email, EmailPattern(d.email), EmailInvalido)
    requires errors.Keys <= {Nombre, Ci, Ruc, Email}
    ensures |errors| == 0 <==> Passes(d)
  {
    if |errors| != 0 {
      var f :| f in errors;
      assert MessageOf(errors, f).Some?;
    }
  }

  /** A legal person never passes without a well-formed RUC, and never needs a cédula. */
  lemma JuridicaNeedsRuc(d: ClienteData)
    requires d.tipo_persona != "fisica"
    ensures Passes(d) <==> !IsBlank(d.nombre) && RucDashPattern(d.ruc) && (IsBlank(d.email) || EmailPattern(d.email))
  {
    RucDashIsNotBlank(d.ruc);
  }

  // ---------------------------------------------------------------------------
  // Submission
  // ---------------------------------------------------------------------------

  /**
   * The object submitted: name, kind of person, `tiene_ruc` and phone country as held; the
   * cédula, RUC, phone, address and e-mail trimmed and dropped when blank; the birth date
   * only dropped when empty.
   */
  function Cleanup(d: ClienteData): CrearClienteDTO {
    CrearClienteDTO(d.nombre, d.tipo_persona, OptTrim(d.ci), NonEmpty(d.fecha_nacimiento), d.tiene_ruc,
                    OptTrim(d.ruc), OptTrim(d.telefono), d.pais_telefono, OptTrim(d.direccion), OptTrim(d.email))
  }

  /** What is submitted is clean: submitting it again would change nothing. */
  lemma CleanupIsClean(d: ClienteData)
    ensures var r := Cleanup(d);
            && Clean(r.ci) && Clean(r.ruc) && Clean(r.telefono) && Clean(r.direccion) && Clean(r.email)
            && r.fecha_nacimiento != Some("")
  {
  }

  /** Every optional value of the client would survive a submit unchanged. */
  predicate CleanCliente(c: Cliente) {
    && Clean(c.ci) && Clean(c.ruc) && Clean(c.telefono) && Clean(c.direccion) && Clean(c.email)
    && c.fecha_nacimiento != Some("")
  }

  /** What a client resubmitted untouched should be: its own values, `PY` for a missing phone country. */
  function Resubmission(c: Cliente): CrearClienteDTO {
    CrearClienteDTO(c.nombre, c.tipo_persona, c.ci, c.fecha_nacimiento, c.tiene_ruc, c.ruc, c.telefono,
                    OrText(c.pais_telefono, "PY"), c.direccion, c.email)
  }

  /** Opening a clean client and submitting it untouched sends back its own values. */
  lemma EditUntouchedRoundTrip(c: Cliente)
    requires CleanCliente(c)
    ensures Cleanup(FormOf(c)) == Resubmission(c)
  {
    var d := FormOf(c);
    assert OptTrim(d.ci) == c.ci by { LoadThenTrim(c.ci); }
    assert OptTrim(d.ruc) == c.ruc by { LoadThenTrim(c.ruc); }
    assert OptTrim(d.telefono) == c.telefono by { LoadThenTrim(c.telefono); }
    assert OptTrim(d.direccion) == c.direccion by { LoadThenTrim(c.direccion); }
    assert OptTrim(d.email) == c.email by { LoadThenTrim(c.email); }
  }

  // ---------------------------------------------------------------------------
  // The form state
  // ---------------------------------------------------------------------------

  class ClienteFormState {
    var formData: ClienteData
    var errors: map<Field, string>

    /** The initial state, filled from the client when one is being edited. */
    constructor(cliente: Option<Cliente>)
      ensures formData == (if cliente.Some? then FormOf(cliente.value) else EmptyForm) && errors == map[]
    {
      formData := if cliente.Some? then FormOf(cliente.value) else EmptyForm;
      errors := map[];
    }

    /** `handleChange` for a text field: the field takes the value and loses its error; other errors stay. */
    method HandleChange(f: Field, v: string)
      modifies this
      ensures formData == With(old(formData), f, v)
      ensures errors == ErrorsAfterChange(old(errors), f)
    {
      formData := With(formData, f, v);
      errors := ErrorsAfterChange(errors, f);
    }

    /** The check box: `handleChange("tiene_ruc", checked ? 1 : 0)`; no error is ever kept under `tiene_ruc`. */
    method ToggleTieneRuc(checked: bool)
      modifies this
      ensures formData == old(formData).(tiene_ruc := if checked then 1 else 0)
      ensures errors == old(errors)
    {
      formData := formData.(tiene_ruc := if checked then 1 else 0);
    }

    /** `validate`: the error map is replaced, and the form passes when it is empty. */
    method Validate() returns (ok: bool)
      modifies this
      ensures ok <==> Passes(formData)
      ensures ok <==> errors == map[]
      ensures MessageOf(errors, Nombre) == RequiredError(formData.nombre, NombreObligatorio)
      ensures MessageOf(errors, Ci) == CiError(formData.tipo_persona, formData.ci)
      ensures MessageOf(errors, Ruc) == RucError(formData.tipo_persona, formData.tiene_ruc, formData.ruc)
      ensures MessageOf(errors, Email) == FormatError(formData.email, EmailPattern(formData.email), EmailInvalido)
      ensures errors.Keys <= {Nombre, Ci, Ruc, Email}
      ensures formData == old(formData)
    {
      var newErrors := CollectErrors(formData);
      NoErrorsIffPasses(formData, newErrors);
      errors := newErrors;
      ok := |newErrors| == 0;
    }

    /** `handleSubmit`: nothing is submitted unless the form passes. */
    method Submit() returns (submitted: Option<CrearClienteDTO>)
      modifies this
      ensures submitted.Some? <==> Passes(formData)
      ensures submitted.Some? ==> submitted.value == Cleanup(formData)
      ensures MessageOf(errors, Nombre) == RequiredError(formData.nombre, NombreObligatorio)
      ensures MessageOf(errors, Ci) == CiError(formData.tipo_persona, formData.ci)
      ensures MessageOf(errors, Ruc) == RucError(formData.tipo_persona, formData.tiene_ruc, formData.ruc)
      ensures MessageOf(errors, Email) == FormatError(formData.email, EmailPattern(formData.email), EmailInvalido)
      ensures errors.Keys <= {Nombre, Ci, Ruc, Email}
      ensures formData == old(formData)
    {
      var ok := Validate();
      if ok {
        submitted := Some(Cleanup(formData));
      } else {
        submitted := None;
      }
    }
  }
}
