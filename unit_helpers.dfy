/**
 * The unit and IVA classifiers of the invoice form: a unit label is turned into one of six
 * standard unit codes, and an IVA percentage into one of three tax tags.
 */
module UnitHelpers {
  import opened Wrappers
  import opened Text

  /** The standard unit codes, in the order the classifier checks them. */
  const UnitCodes: seq<string> := ["UNI", "KG", "L", "M", "M2", "M3"]

  /** The three tax tags of an invoice line. */
  const IvaTypes: seq<string> := ["exentas", "iva5", "iva10"]

  /**
   * `mapUnidadMedida`: a missing or empty label is `UNI`; a label that is a code in any
   * letter case is that code; otherwise the first of `unidad`, `kilo`, `litro`, `metro`
   * found in the lower-cased label decides, `metro` refined by `cuadrado` and `cúbico`.
   */
  function MapUnidadMedida(unidad: Option<string>): (r: string)
    ensures r in UnitCodes
  {
    if unidad.None? || unidad.value == "" then "UNI"
    else
      var upper := ToUpper(unidad.value);
      if upper in UnitCodes then upper else ClassifyName(ToLower(unidad.value))
  }

  /** The name rules, on the lower-cased label, in the order they are tried. */
  function ClassifyName(lower: string): (r: string)
    ensures r in UnitCodes
  {
    if Contains(lower, "unidad") then "UNI"
    else if Contains(lower, "kilo") then "KG"
    else if Contains(lower, "litro") then "L"
    else if Contains(lower, "metro") then
      if Contains(lower, "cuadrado") then "M2"
      else if Contains(lower, "cúbico") || Contains(lower, "cubico") then "M3"
      else "M"
    else "UNI"
  }

  /** A label longer than every code is classified by its name alone. */
  lemma LongLabelByName(u: string)
    requires |u| > 3
    ensures MapUnidadMedida(Some(u)) == ClassifyName(ToLower(u))
  {
    assert |ToUpper(u)| == |u|;
  }

  /** `v` spells `c` with each letter in either case. */
  predicate CaseVariant(v: string, c: string) {
    |v| == |c| && forall i :: 0 <= i < |v| ==> v[i] == c[i] || v[i] == LowerChar(c[i])
  }

  /** A code written in upper case, digits or lower case is read back as that code. */
  lemma CaseVariantUpper(v: string, c: string)
    requires CaseVariant(v, c) && c in UnitCodes
    ensures ToUpper(v) == c
  {
    assert forall i :: 0 <= i < |c| ==> IsAsciiUpper(c[i]) || IsAsciiDigit(c[i]);
    forall i | 0 <= i < |v| ensures ToUpper(v)[i] == c[i] {
      assert UpperChar(c[i]) == c[i];
      assert UpperChar(LowerChar(c[i])) == c[i];
    }
  }

  /** Any case variant of a unit code is classified as that code. */
  lemma CaseVariantIsCode(v: string, c: string)
    requires CaseVariant(v, c) && c in UnitCodes
    ensures MapUnidadMedida(Some(v)) == c
  {
    CaseVariantUpper(v, c);
  }

  /** A code is its own classification, so classifying twice changes nothing. */
  lemma MapUnidadMedidaIdempotent(unidad: Option<string>)
    ensures MapUnidadMedida(Some(MapUnidadMedida(unidad))) == MapUnidadMedida(unidad)
  {
    var c := MapUnidadMedida(unidad);
    CaseVariantIsCode(c, c);
  }

  /** The helper's documented example: `Kilogramo` is `KG`. */
  lemma KilogramoExample()
    ensures MapUnidadMedida(Some("Kilogramo")) == "KG"
  {
    var lower := "kilogramo";
    assert ToLower("Kilogramo") == lower;
    LongLabelByName("Kilogramo");
    AbsentChar(lower, "unidad", 0);
    OccurrenceAt(lower, "kilo", 0);
  }

  /** The helper's documented example: `Unidad` is `UNI`. */
  lemma UnidadExample()
    ensures MapUnidadMedida(Some("Unidad")) == "UNI"
  {
    var lower := "unidad";
    assert ToLower("Unidad") == lower;
    LongLabelByName("Unidad");
    OccurrenceAt(lower, "unidad", 0);
  }

  /** The words of the name rules missing from `metro cuadrado`. */
  lemma MetroCuadradoLacks(lower: string)
    requires lower == "metro cuadrado"
    ensures !Contains(lower, "unidad") && !Contains(lower, "kilo") && !Contains(lower, "litro")
  {
    assert 'n' !in lower && 'k' !in lower && 'l' !in lower;
    AbsentChar(lower, "unidad", 1);
    AbsentChar(lower, "kilo", 0);
    AbsentChar(lower, "litro", 0);
  }

  /** `metro` followed by `cuadrado` is M2. */
  lemma MetroCuadradoExample()
    ensures ClassifyName("metro cuadrado") == "M2"
  {
    var lower := "metro cuadrado";
    MetroCuadradoLacks(lower);
    assert lower[..5] == "metro" && lower[6..] == "cuadrado";
    OccurrenceAt(lower, "metro", 0);
    OccurrenceAt(lower, "cuadrado", 6);
  }

  /** The words of the name rules missing from `metro cúbico`. */
  lemma MetroCubicoLacks(lower: string)
    requires lower == "metro cúbico"
    ensures !Contains(lower, "unidad") && !Contains(lower, "kilo") && !Contains(lower, "litro")
    ensures !Contains(lower, "cuadrado")
  {
    assert 'n' !in lower && 'k' !in lower && 'l' !in lower && 'a' !in lower;
    AbsentChar(lower, "unidad", 1);
    AbsentChar(lower, "kilo", 0);
    AbsentChar(lower, "litro", 0);
    AbsentChar(lower, "cuadrado", 2);
  }

  /** `metro` followed by `cúbico` is M3. */
  lemma MetroCubicoExample()
    ensures ClassifyName("metro cúbico") == "M3"
  {
    var lower := "metro cúbico";
    MetroCubicoLacks(lower);
    assert lower[..5] == "metro" && lower[6..] == "cúbico";
    OccurrenceAt(lower, "metro", 0);
    OccurrenceAt(lower, "cúbico", 6);
  }

  /**
   * `convertIvaToType`: 0 is `exentas`, 5 is `iva5`, and every other percentage, 19
   * included, is `iva10`.
   */
  function ConvertIvaToType(iva: real): (r: string)
    ensures r in IvaTypes
    ensures r == "exentas" <==> iva == 0.0
    ensures r == "iva5" <==> iva == 5.0
    ensures r == "iva10" <==> iva != 0.0 && iva != 5.0
  {
    if iva == 0.0 then "exentas" else if iva == 5.0 then "iva5" else "iva10"
  }
}
