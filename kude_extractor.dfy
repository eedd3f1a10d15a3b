/**
 * The data side of the KuDE generator (public/generarPdfDesdeXML.php): isolating the `rDE`
 * document in the posted payload, reading the issuer, receiver, document, item and total
 * fields out of the parsed tree, choosing each line's tax column, and choosing the QR
 * payload. The XML parser and serialiser are parameters; rendering the PDF is not modelled.
 */
module KudeExtractor {
  import opened Wrappers
  import opened Text
  import opened QrRepair
  import opened QrNormalizer

  // ---------------------------------------------------------------------------
  // The XML tree
  // ---------------------------------------------------------------------------

  /**
   * An element as SimpleXML presents it: name, attributes (namespace declarations are not
   * attributes), its own text and its child elements.
   */
  datatype Node = Node(name: string, attrs: seq<(string, string)>, text: string, children: seq<Node>)

  /** `simplexml_load_string` (None when the text is not well-formed XML) and `asXML`. */
  datatype XmlLibrary = XmlLibrary(parse: string -> Option<Node>, asXml: Node -> string)

  /** White space as libxml's `xmlIsBlankNode` sees it. */
  predicate IsXmlSpace(c: char) { c == ' ' || c == '\t' || c == '\n' || c == '\r' }

  /**
   * `!$xml` on a loaded document: SimpleXML casts an element to false when it has no
   * attributes, no child elements and no text beyond white space.
   */
  predicate SimpleXmlFalsy(n: Node) {
    n.attrs == [] && n.children == [] && forall i :: 0 <= i < |n.text| ==> IsXmlSpace(n.text[i])
  }

  /** The children of `n` with the given name, in document order. */
  function ChildrenNamed(n: Option<Node>, name: string): seq<Node> {
    match n
    case None => []
    case Some(x) => FilterNamed(x.children, name)
  }

  function FilterNamed(cs: seq<Node>, name: string): seq<Node> {
    if cs == [] then []
    else (if cs[0].name == name then [cs[0]] else []) + FilterNamed(cs[1..], name)
  }

  /** `$n->name`: the first child element with that name. */
  function Child(n: Option<Node>, name: string): Option<Node> {
    match n
    case None => None
    case Some(x) => FirstNamed(x.children, name)
  }

  function FirstNamed(cs: seq<Node>, name: string): Option<Node> {
    if cs == [] then None
    else if cs[0].name == name then Some(cs[0])
    else FirstNamed(cs[1..], name)
  }

  /** `(string)$n`: an element's own text, `""` for a missing element. */
  function TextOf(n: Option<Node>): string {
    match n
    case None => ""
    case Some(x) => x.text
  }

  /** `(string)$n['name']`: an attribute's value, `""` when missing. */
  function AttrOf(n: Option<Node>, name: string): string {
    match n
    case None => ""
    case Some(x) => FirstValue(x.attrs, name)
  }

  function FirstValue(attrs: seq<(string, string)>, name: string): string {
    if attrs == [] then ""
    else if attrs[0].0 == name then attrs[0].1
    else FirstValue(attrs[1..], name)
  }

  /** The first child so named is the first element of the children so named. */
  lemma {:induction false} FirstNamedIsFirstFiltered(cs: seq<Node>, name: string)
    ensures FilterNamed(cs, name) == [] <==> FirstNamed(cs, name).None?
    ensures FilterNamed(cs, name) != [] ==> FirstNamed(cs, name) == Some(FilterNamed(cs, name)[0])
  {
    if cs != [] && cs[0].name != name {
      FirstNamedIsFirstFiltered(cs[1..], name);
    }
  }

  // ---------------------------------------------------------------------------
  // Leftmost-shortest matching, as `preg_match('/open.*?close/s')` does
  // ---------------------------------------------------------------------------

  predicate OccursAt(s: string, t: string, k: nat) { k <= |s| && IsPrefix(t, s[k..]) }

  /** The start of the leftmost match of `open.*?close` and the start of its `close`. */
  function LeftmostShortest(s: string, open: string, close: string): (r: Option<(nat, nat)>)
    ensures r.Some? ==> r.value.0 + |open| <= r.value.1 && r.value.1 + |close| <= |s|
  {
    match IndexOf(s, open)
    case None => None
    case Some(i) =>
      match IndexFrom(s, close, i + |open|)
      case None => None
      case Some(j) => Some((i, j))
  }

  /** A match found is the leftmost one, and its closing delimiter is the first after the opening one. */
  lemma LeftmostShortestFound(s: string, open: string, close: string)
    requires LeftmostShortest(s, open, close).Some?
    ensures var (i, j) := LeftmostShortest(s, open, close).value;
            && OccursAt(s, open, i) && OccursAt(s, close, j)
            && (forall k: nat :: k < i ==> !OccursAt(s, open, k))
            && (forall k: nat :: i + |open| <= k < j ==> !OccursAt(s, close, k))
  {
    var i := IndexOf(s, open).value;
    assert s[i..][..|open|] == s[i..i + |open|];
  }

  /** No match means no opening delimiter is followed by a closing one. */
  lemma LeftmostShortestAbsent(s: string, open: string, close: string)
    requires LeftmostShortest(s, open, close).None?
    ensures forall i: nat, j: nat :: OccursAt(s, open, i) && OccursAt(s, close, j) ==> j < i + |open|
  {
    match IndexOf(s, open)
    case None =>
    case Some(i0) =>
      forall i: nat, j: nat | OccursAt(s, open, i) && OccursAt(s, close, j) ensures j < i + |open| {
      }
  }

  // ---------------------------------------------------------------------------
  // Envelope isolation
  // ---------------------------------------------------------------------------

  const RdeOpen := "<rDE"
  const RdeClose := "</rDE>"

  /** The bounds kept by the first step: the matched element, or the whole payload. */
  function MatchedWindow(x: string, open: string, close: string): (w: (nat, nat))
    ensures w.0 <= w.1 <= |x|
  {
    match LeftmostShortest(x, open, close)
    case Some((i, j)) => (i, j + |close|)
    case None => (0, |x|)
  }

  /** The bounds kept by both steps: the second one cuts after the first `close`. */
  function EnvelopeWindow(x: string, open: string, close: string): (w: (nat, nat))
    ensures MatchedWindow(x, open, close).0 == w.0 <= w.1 <= MatchedWindow(x, open, close).1
  {
    var (a, b) := MatchedWindow(x, open, close);
    match IndexOf(x[a..b], close)
    case Some(k) => (a, a + k + |close|)
    case None => (a, b)
  }

  /** The two trimming steps applied to the posted payload before parsing. */
  function TrimEnvelope(x: string): string {
    var w := EnvelopeWindow(x, RdeOpen, RdeClose);
    x[w.0..w.1]
  }

  lemma MatchedWindowOf(x: string, open: string, close: string, i: nat, j: nat)
    requires LeftmostShortest(x, open, close) == Some((i, j))
    ensures MatchedWindow(x, open, close) == (i, j + |close|)
  {
  }

  /** The second step cuts the matched window after its first `close`, or keeps it whole. */
  lemma WindowCut(x: string, open: string, close: string, a: nat, b: nat)
    requires MatchedWindow(x, open, close) == (a, b)
    ensures var w := EnvelopeWindow(x, open, close);
            && (IndexOf(x[a..b], close).Some? ==> x[w.0..w.1] == x[a..b][..IndexOf(x[a..b], close).value + |close|])
            && (IndexOf(x[a..b], close).None? ==> x[w.0..w.1] == x[a..b])
  {
    match IndexOf(x[a..b], close)
    case Some(k) =>
      assert x[a..a + k + |close|] == x[a..b][..k + |close|];
    case None =>
  }

  lemma TrimEnvelopeCut(x: string, a: nat, b: nat)
    requires MatchedWindow(x, RdeOpen, RdeClose) == (a, b)
    ensures IndexOf(x[a..b], RdeClose).Some? ==>
              TrimEnvelope(x) == x[a..b][..IndexOf(x[a..b], RdeClose).value + |RdeClose|]
    ensures IndexOf(x[a..b], RdeClose).None? ==> TrimEnvelope(x) == x[a..b]
  {
    WindowCut(x, RdeOpen, RdeClose, a, b);
  }

  /** `</rDE>` cannot start inside a leading `<rDE`. */
  lemma CloseNotInsideOpen(y: string, k: nat)
    requires |y| >= |RdeOpen| && y[..|RdeOpen|] == RdeOpen && k < |RdeOpen|
    ensures !IsPrefix(RdeClose, y[k..])
  {
    assert y[k] == y[..|RdeOpen|][k] == RdeOpen[k];
    if k == 0 {
      assert y[1] == y[..|RdeOpen|][1] == RdeOpen[1] == 'r';
      assert y[k..][1] == y[1];
      NotPrefixAt(RdeClose, y[k..], 1);
    } else {
      assert y[k..][0] == y[k];
      NotPrefixAt(RdeClose, y[k..], 0);
    }
  }

  /** An occurrence of `t` at `j` in `x` is one at `j - i` in a slice `x[i..e]` that covers it. */
  lemma SliceKeepsOccurrence(x: string, t: string, i: nat, j: nat, e: nat)
    requires i <= j && j + |t| <= e <= |x| && OccursAt(x, t, j)
    ensures OccursAt(x[i..e], t, j - i)
  {
    assert x[i..e][j - i..][..|t|] == x[j..][..|t|];
  }

  /** No occurrence of `t` at `k` in `x` means none at `k - i` in a slice `x[i..e]`. */
  lemma SliceKeepsAbsence(x: string, t: string, i: nat, k: nat, e: nat)
    requires i <= k <= e <= |x| && !OccursAt(x, t, k)
    ensures !IsPrefix(t, x[i..e][k - i..])
  {
    if k + |t| <= e { assert x[i..e][k - i..][..|t|] == x[k..][..|t|]; }
  }

  /** The first occurrence of `t` is at `d` when it occurs there and at no earlier position. */
  lemma FirstOccurrence(y: string, t: string, d: nat)
    requires OccursAt(y, t, d) && forall m: nat :: m < d ==> !IsPrefix(t, y[m..])
    ensures IndexOf(y, t) == Some(d)
  {
    assert Contains(y, t);
  }

  /** Inside a matched envelope the first `</rDE>` is the one that ends it. */
  lemma MatchedEnvelopeHasNoEarlierClose(x: string, i: nat, j: nat, k: nat)
    requires LeftmostShortest(x, RdeOpen, RdeClose) == Some((i, j))
    requires k < j - i
    ensures !IsPrefix(RdeClose, x[i..j + |RdeClose|][k..])
  {
    var y := x[i..j + |RdeClose|];
    LeftmostShortestFound(x, RdeOpen, RdeClose);
    if k < |RdeOpen| {
      assert y[..|RdeOpen|] == x[i..][..|RdeOpen|];
      CloseNotInsideOpen(y, k);
    } else {
      SliceKeepsAbsence(x, RdeClose, i, i + k, j + |RdeClose|);
    }
  }

  /** A match ends with an occurrence of `close`. */
  lemma MatchClosesAt(x: string, open: string, close: string, i: nat, j: nat)
    requires LeftmostShortest(x, open, close) == Some((i, j))
    ensures OccursAt(x, close, j)
  {
    LeftmostShortestFound(x, open, close);
  }

  /** When the first `close` of the matched window ends it, the second step keeps the window. */
  lemma WindowOfFirstClose(x: string, open: string, close: string, a: nat, b: nat, y: string, d: nat)
    requires MatchedWindow(x, open, close) == (a, b) && y == x[a..b] && IndexOf(y, close) == Some(d)
    requires d + |close| == b - a
    ensures EnvelopeWindow(x, open, close) == (a, b)
  {
  }

  /** A match whose first `close` is the one that ends it is kept whole by both steps. */
  lemma MatchKeptWhole(x: string, open: string, close: string, i: nat, j: nat, y: string)
    requires LeftmostShortest(x, open, close) == Some((i, j)) && y == x[i..j + |close|]
    requires forall m: nat :: m < j - i ==> !IsPrefix(close, y[m..])
    ensures EnvelopeWindow(x, open, close) == (i, j + |close|)
  {
    MatchClosesAt(x, open, close, i, j);
    SliceKeepsOccurrence(x, close, i, j, j + |close|);
    FirstOccurrence(y, close, j - i);
    MatchedWindowOf(x, open, close, i, j);
    WindowOfFirstClose(x, open, close, i, j + |close|, y, j - i);
  }

  /** With an `rDE` element present, the kept text runs from the first `<rDE` to the first `</rDE>` after it, inclusive. */
  lemma EnvelopeKeepsDocument(x: string)
    requires LeftmostShortest(x, RdeOpen, RdeClose).Some?
    ensures var (i, j) := LeftmostShortest(x, RdeOpen, RdeClose).value;
            TrimEnvelope(x) == x[i..j + |RdeClose|]
  {
    var (i, j) := LeftmostShortest(x, RdeOpen, RdeClose).value;
    var y := x[i..j + |RdeClose|];
    forall m: nat | m < j - i ensures !IsPrefix(RdeClose, y[m..]) {
      MatchedEnvelopeHasNoEarlierClose(x, i, j, m);
    }
    MatchKeptWhole(x, RdeOpen, RdeClose, i, j, y);
  }

  /** Nothing follows the first `</rDE>`: the kept text holds at most one, at its very end. */
  lemma EnvelopeEndsAtFirstClose(x: string)
    ensures forall k: nat :: OccursAt(TrimEnvelope(x), RdeClose, k) ==> k + |RdeClose| == |TrimEnvelope(x)|
  {
    var (a, b) := MatchedWindow(x, RdeOpen, RdeClose);
    var y := x[a..b];
    var r := TrimEnvelope(x);
    TrimEnvelopeCut(x, a, b);
    match IndexOf(y, RdeClose) {
      case None =>
      case Some(k0) =>
        CutAtFirst(y, RdeClose, k0, r);
    }
  }

  /** Cutting right after the first occurrence of `t` leaves `t` only at the very end. */
  lemma CutAtFirst(y: string, t: string, k0: nat, r: string)
    requires k0 + |t| <= |y| && forall j :: 0 <= j < k0 ==> !IsPrefix(t, y[j..])
    requires r == y[..k0 + |t|]
    ensures forall k: nat :: OccursAt(r, t, k) ==> k + |t| == |r|
  {
    forall k: nat | OccursAt(r, t, k) ensures k + |t| == |r| {
      assert r[k..][..|t|] == y[k..][..|t|];
    }
  }

  /** A payload without `</rDE>` is passed on unchanged. */
  lemma EnvelopeWithoutClose(x: string)
    requires !Contains(x, RdeClose)
    ensures TrimEnvelope(x) == x
  {
    assert LeftmostShortest(x, RdeOpen, RdeClose).None? by {
      if LeftmostShortest(x, RdeOpen, RdeClose).Some? {
        LeftmostShortestFound(x, RdeOpen, RdeClose);
      }
    }
    assert x[0..|x|] == x;
  }

  // ---------------------------------------------------------------------------
  // PHP conversions
  // ---------------------------------------------------------------------------

  /** `str_pad($s, 7, '0', STR_PAD_LEFT)`. */
  function PadLeft7(s: string): string {
    if |s| >= 7 then s else Zeros(7 - |s|) + s
  }

  function Zeros(n: nat): (r: string)
    ensures |r| == n && forall i :: 0 <= i < n ==> r[i] == '0'
  {
    if n == 0 then [] else "0" + Zeros(n - 1)
  }

  /** Zero-padding keeps at least seven characters, ends with the original and adds only zeros. */
  lemma PadLeft7Shape(s: string)
    ensures |PadLeft7(s)| == if |s| >= 7 then |s| else 7
    ensures PadLeft7(s)[|PadLeft7(s)| - |s|..] == s
    ensures forall i :: 0 <= i < |PadLeft7(s)| - |s| ==> PadLeft7(s)[i] == '0'
  {
  }

  lemma {:induction false} LeadingZeroKeepsValue(s: string)
    requires AllDigits(s)
    ensures AllDigits("0" + s) && DigitsValue("0" + s) == DigitsValue(s)
    decreases |s|
  {
    var t := "0" + s;
    assert AllDigits(t) by {
      forall i | 0 <= i < |t| ensures IsAsciiDigit(t[i]) { if i > 0 { assert t[i] == s[i - 1]; } }
    }
    if s != [] {
      var init := s[..|s| - 1];
      assert t[..|t| - 1] == "0" + init;
      LeadingZeroKeepsValue(init);
    }
  }

  lemma {:induction false} ZerosKeepValue(n: nat, s: string)
    requires AllDigits(s)
    ensures AllDigits(Zeros(n) + s) && DigitsValue(Zeros(n) + s) == DigitsValue(s)
    decreases n
  {
    if n == 0 {
      assert Zeros(n) + s == s;
    } else {
      ZerosKeepValue(n - 1, s);
      assert Zeros(n) + s == "0" + (Zeros(n - 1) + s);
      LeadingZeroKeepsValue(Zeros(n - 1) + s);
    }
  }

  /** Padding a document number does not change the number it denotes. */
  lemma PadLeft7KeepsNumber(s: string)
    requires AllDigits(s)
    ensures AllDigits(PadLeft7(s)) && DigitsValue(PadLeft7(s)) == DigitsValue(s)
  {
    if |s| < 7 { ZerosKeepValue(7 - |s|, s); }
  }

  predicate NotDigit(c: char) { !IsAsciiDigit(c) }

  /** The digits after a leading `.`, up to the first non-digit. */
  function FractionDigits(rest: string): (f: string)
    ensures AllDigits(f)
  {
    if |rest| > 0 && rest[0] == '.' then rest[1..][..SpanUntil(rest[1..], NotDigit)] else ""
  }

  /** The value of the leading unsigned decimal of `body`. */
  function UnsignedValue(body: string): real {
    var n := SpanUntil(body, NotDigit);
    var fraction := FractionDigits(body[n..]);
    DigitsValue(body[..n]) as real + DigitsValue(fraction) as real / Pow10(|fraction|) as real
  }

  /**
   * `(float)$s` on the decimal notation the documents use: an optional sign, digits and
   * an optional fraction; reading stops at the first character that does not fit, and an
   * empty or non-numeric text is 0.
   */
  function PhpFloat(s: string): real {
    if |s| > 0 && s[0] == '-' then -UnsignedValue(s[1..])
    else if |s| > 0 && s[0] == '+' then UnsignedValue(s[1..])
    else UnsignedValue(s)
  }

  /** The integer part of `a` followed by a text `t` that starts with a point. */
  lemma IntegerPartOfDecimal(a: string, t: string)
    requires AllDigits(a) && |t| > 0 && t[0] == '.'
    ensures SpanUntil(a + t, NotDigit) == |a|
    ensures (a + t)[..|a|] == a && (a + t)[|a|..] == t
  {
    assert NotDigit(t[0]);
    SpanUntilPrefix(a, t, NotDigit);
  }

  lemma FractionOfDecimal(t: string, b: string)
    requires AllDigits(b) && |t| > 0 && t[0] == '.' && t[1..] == b
    ensures FractionDigits(t) == b
  {
    SpanUntilAll(b, NotDigit);
  }

  lemma UnsignedDecimal(a: string, t: string, b: string)
    requires AllDigits(a) && AllDigits(b) && |t| > 0 && t[0] == '.' && t[1..] == b
    ensures UnsignedValue(a + t) == DigitsValue(a) as real + DigitsValue(b) as real / Pow10(|b|) as real
  {
    IntegerPartOfDecimal(a, t);
    FractionOfDecimal(t, b);
  }

  lemma UnsignedIsFloat(s: string)
    requires |s| > 0 && s[0] != '-' && s[0] != '+'
    ensures PhpFloat(s) == UnsignedValue(s)
  {
  }

  /** The digits `a` followed by a point and the digits `b`, the point starting `t`. */
  lemma DecimalIsFloat(a: string, t: string, b: string)
    requires AllDigits(a) && AllDigits(b) && |t| > 0 && t[0] == '.' && t[1..] == b
    ensures PhpFloat(a + t) == DigitsValue(a) as real + DigitsValue(b) as real / Pow10(|b|) as real
  {
    var s := a + t;
    assert s[0] != '-' && s[0] != '+' by {
      if a == [] { assert s[0] == t[0]; } else { assert s[0] == a[0]; }
    }
    UnsignedIsFloat(s);
    UnsignedDecimal(a, t, b);
  }

  /** A decimal `a.b` reads as a + b / 10^|b|. */
  lemma PhpFloatDecimal(a: string, b: string)
    requires AllDigits(a) && AllDigits(b)
    ensures PhpFloat(a + "." + b) == DigitsValue(a) as real + DigitsValue(b) as real / Pow10(|b|) as real
  {
    var t := "." + b;
    assert a + "." + b == a + t;
    DecimalIsFloat(a, t, b);
  }

  /** A digit string reads as its integer value; in particular a missing field reads as 0. */
  lemma PhpFloatInteger(a: string)
    requires AllDigits(a)
    ensures PhpFloat(a) == DigitsValue(a) as real
  {
    if a != [] { assert IsAsciiDigit(a[0]); }
    SpanUntilAll(a, NotDigit);
    assert a[..|a|] == a;
    assert FractionDigits(a[|a|..]) == "";
  }

  // ---------------------------------------------------------------------------
  // Fields of the document
  // ---------------------------------------------------------------------------

  datatype Emisor = Emisor(nombre: string, ruc: string, dv: string, direccion: string, telefono: string,
                           email: string, departamento: string, ciudad: string, actividad: string)

  datatype Receptor = Receptor(nombre: string, ruc: string, dv: string, codigoCliente: string,
                               direccion: string, telefono: string, email: string)

  datatype Documento = Documento(timbrado: string, establecimiento: string, puntoExpedicion: string, numero: string,
                                 fechaVigencia: string, fechaEmision: string, cdc: string, condicion: string,
                                 tipoTransaccion: string, moneda: string, tipoCambio: string)

  datatype Item = Item(codigo: string, descripcion: string, cantidad: real, precioUnitario: real, total: real,
                       unidad: string, tasaIva: real)

  datatype Totales = Totales(exentas: real, gravadas5: real, gravadas10: real, iva5: real, iva10: real,
                             totalIva: real, totalOperacion: real)

  /** `$xml->DE` and the groups below it that the extractor reads. */
  function De(root: Node): Option<Node> { Child(Some(root), "DE") }
  function GDatGralOpe(root: Node): Option<Node> { Child(De(root), "gDatGralOpe") }
  function GDtipDE(root: Node): Option<Node> { Child(De(root), "gDtipDE") }

  function Emis(root: Node, name: string): string { TextOf(Child(Child(GDatGralOpe(root), "gEmis"), name)) }
  function Rec(root: Node, name: string): string { TextOf(Child(Child(GDatGralOpe(root), "gDatRec"), name)) }
  function OpeCom(root: Node, name: string): string { TextOf(Child(Child(GDatGralOpe(root), "gOpeCom"), name)) }
  function Timb(root: Node, name: string): string { TextOf(Child(Child(De(root), "gTimb"), name)) }
  function Sub(root: Node, name: string): real { PhpFloat(TextOf(Child(Child(De(root), "gTotSub"), name))) }

  function EmisorOf(root: Node): Emisor {
    Emisor(Emis(root, "dNomEmi"), Emis(root, "dRucEm"), Emis(root, "dDVEmi"), Emis(root, "dDirEmi"),
           Emis(root, "dTelEmi"), Emis(root, "dEmailE"), Emis(root, "dDesDepEmi"), Emis(root, "dDesCiuEmi"),
           TextOf(Child(Child(Child(GDatGralOpe(root), "gEmis"), "gActEco"), "dDesActEco")))
  }

  /** The receiver's address, telephone and e-mail are always left blank. */
  function ReceptorOf(root: Node): Receptor {
    Receptor(Rec(root, "dNomRec"), Rec(root, "dRucRec"), Rec(root, "dDVRec"), Rec(root, "dCodCliente"), "", "", "")
  }

  /** The document number is zero-padded to seven characters, and the exchange rate is always `"1"`. */
  function DocumentoOf(root: Node): Documento {
    Documento(Timb(root, "dNumTim"), Timb(root, "dEst"), Timb(root, "dPunExp"), PadLeft7(Timb(root, "dNumDoc")),
              Timb(root, "dFeIniT"), TextOf(Child(GDatGralOpe(root), "dFeEmiDE")), AttrOf(De(root), "Id"),
              TextOf(Child(Child(GDtipDE(root), "gCamCond"), "dDCondOpe")),
              OpeCom(root, "dDesTipTra"), OpeCom(root, "cMoneOpe"), "1")
  }

  function TotalesOf(root: Node): Totales {
    Totales(Sub(root, "dSubExe"), Sub(root, "dSub5"), Sub(root, "dSub10"), Sub(root, "dIVA5"),
            Sub(root, "dIVA10"), Sub(root, "dTotIVA"), Sub(root, "dTotGralOpe"))
  }

  /** One item record read from a `gCamItem` element; a missing element gives the blank record. */
  function ItemOf(g: Option<Node>): Item {
    Item(TextOf(Child(g, "dCodInt")), TextOf(Child(g, "dDesProSer")), PhpFloat(TextOf(Child(g, "dCantProSer"))),
         PhpFloat(TextOf(Child(Child(g, "gValorItem"), "dPUniProSer"))),
         PhpFloat(TextOf(Child(Child(Child(g, "gValorItem"), "gValorRestaItem"), "dTotOpeItem"))),
         TextOf(Child(g, "dDesUniMed")), PhpFloat(TextOf(Child(Child(g, "gCamIVA"), "dTasaIVA"))))
  }

  /** The `gCamItem` elements of the document, in document order. */
  function ItemNodes(root: Node): seq<Node> {
    ChildrenNamed(GDtipDE(root), "gCamItem")
  }

  /** `$gCamItem` read as one element: the first `gCamItem`, if any. */
  function FirstItemNode(root: Node): Option<Node> {
    Child(GDtipDE(root), "gCamItem")
  }

  /** A document without a `DE` element yields blank fields, the padded number `0000000` and exchange rate `"1"`. */
  lemma MissingDocumentGivesBlankFields(root: Node)
    requires De(root).None?
    ensures EmisorOf(root) == Emisor("", "", "", "", "", "", "", "", "")
    ensures ReceptorOf(root) == Receptor("", "", "", "", "", "", "")
    ensures DocumentoOf(root) == Documento("", "", "", "0000000", "", "", "", "", "", "", "1")
    ensures TotalesOf(root) == Totales(0.0, 0.0, 0.0, 0.0, 0.0, 0.0, 0.0)
    ensures ItemNodes(root) == []
  {
    PhpFloatInteger("");
    assert Zeros(7) == "0000000";
  }

  /** A blank item has empty texts and zero amounts. */
  lemma BlankItem()
    ensures ItemOf(None) == Item("", "", 0.0, 0.0, 0.0, "", 0.0)
  {
    PhpFloatInteger("");
  }

  /** The records read from the elements `gs`, one per element, in order. */
  function ItemsOf(gs: seq<Node>): (r: seq<Item>)
    ensures |r| == |gs|
    decreases |gs|
  {
    if gs == [] then [] else ItemsOf(gs[..|gs| - 1]) + [ItemOf(Some(gs[|gs| - 1]))]
  }

  /** The k-th record is the one read from the k-th element. */
  lemma {:induction false} ItemsOfPointwise(gs: seq<Node>)
    ensures forall k :: 0 <= k < |gs| ==> ItemsOf(gs)[k] == ItemOf(Some(gs[k]))
    decreases |gs|
  {
    if gs != [] {
      var init := gs[..|gs| - 1];
      ItemsOfPointwise(init);
      forall k | 0 <= k < |gs| ensures ItemsOf(gs)[k] == ItemOf(Some(gs[k])) {
        if k < |init| { assert gs[k] == init[k]; }
      }
    }
  }

  /**
   * The item list: one record per `gCamItem` element in document order, or, when there is
   * none, the one record read from the missing element.
   */
  predicate ItemsAgree(root: Node, items: seq<Item>) {
    var gs := ItemNodes(root);
    if |gs| > 0 then items == ItemsOf(gs) else items == [ItemOf(FirstItemNode(root))]
  }

  /** The item list is never empty, and without elements it is the blank record. */
  lemma ItemsAgreeShape(root: Node, items: seq<Item>)
    requires ItemsAgree(root, items)
    ensures |items| >= 1
    ensures |ItemNodes(root)| > 0 ==>
              (|items| == |ItemNodes(root)| &&
               forall k :: 0 <= k < |items| ==> items[k] == ItemOf(Some(ItemNodes(root)[k])))
    ensures ItemNodes(root) == [] ==> items == [Item("", "", 0.0, 0.0, 0.0, "", 0.0)]
  {
    var d := GDtipDE(root);
    if d.Some? { FirstNamedIsFirstFiltered(d.value.children, "gCamItem"); }
    if ItemNodes(root) == [] { BlankItem(); } else { ItemsOfPointwise(ItemNodes(root)); }
  }

  /** The `foreach` over the `gCamItem` elements: one record per element, in order. */
  method LeerItems(gCamItem: seq<Node>) returns (items: seq<Item>)
    ensures items == ItemsOf(gCamItem)
  {
    items := [];
    for k := 0 to |gCamItem|
      invariant items == ItemsOf(gCamItem[..k])
    {
      items := items + [ItemOf(Some(gCamItem[k]))];
      assert gCamItem[..k + 1][..k] == gCamItem[..k];
    }
    assert gCamItem[..|gCamItem|] == gCamItem;
  }

  /** Items extraction: the loop over the `gCamItem` elements, or the single blank-item branch. */
  method ExtraerItems(root: Node) returns (items: seq<Item>)
    ensures ItemsAgree(root, items)
  {
    var gCamItem := ItemNodes(root);
    if |gCamItem| > 0 {
      items := LeerItems(gCamItem);
    } else {
      items := [ItemOf(FirstItemNode(root))];
    }
  }

  // ---------------------------------------------------------------------------
  // Tax columns of a line
  // ---------------------------------------------------------------------------

  /** A printed line: the amount columns hold the line total or None, printed as `0`. */
  datatype Fila = Fila(codigo: string, descripcion: string, cantidad: real, precioUnitario: real,
                       exentas: Option<real>, gravadas5: Option<real>, gravadas10: Option<real>)

  function Column(it: Item, tasa: real): Option<real> { if it.tasaIva == tasa then Some(it.total) else None }

  function FilaOf(it: Item): Fila {
    Fila(it.codigo, it.descripcion, it.cantidad, it.precioUnitario, Column(it, 0.0), Column(it, 5.0), Column(it, 10.0))
  }

  /** The line total appears in at most one column: the one whose rate equals the item's rate. */
  lemma TaxColumnChoice(it: Item)
    ensures var f := FilaOf(it);
            && (f.exentas.Some? <==> it.tasaIva == 0.0)
            && (f.gravadas5.Some? <==> it.tasaIva == 5.0)
            && (f.gravadas10.Some? <==> it.tasaIva == 10.0)
            && (f.exentas.Some? ==> f.exentas.value == it.total && f.gravadas5.None? && f.gravadas10.None?)
            && (f.gravadas5.Some? ==> f.gravadas5.value == it.total && f.exentas.None? && f.gravadas10.None?)
            && (f.gravadas10.Some? ==> f.gravadas10.value == it.total && f.exentas.None? && f.gravadas5.None?)
            && (it.tasaIva != 0.0 && it.tasaIva != 5.0 && it.tasaIva != 10.0 ==>
                  f.exentas.None? && f.gravadas5.None? && f.gravadas10.None?)
  {
  }

  // ---------------------------------------------------------------------------
  // The QR payload
  // ---------------------------------------------------------------------------

  const QrOpen := "<dCarQR>"
  const QrClose := "</dCarQR>"
  const CdcFallbackPrefix := "https://ekuatia.set.gov.py/consultas/public/consulta-documento-electronico?cdc="

  /** The first group of a lazy `open(.*?)close` match with the `s` flag, or None without a match. */
  function Capture(s: string, open: string, close: string): Option<string> {
    match LeftmostShortest(s, open, close)
    case Some((i, j)) => Some(s[i + |open|..j])
    case None => None
  }

  /** A capture sits between its delimiters at the leftmost opening one, and holds no closing one. */
  lemma CaptureFound(s: string, open: string, close: string, i: nat, j: nat)
    requires |close| > 0 && LeftmostShortest(s, open, close) == Some((i, j))
    ensures Capture(s, open, close) == Some(s[i + |open|..j])
    ensures OccursAt(s, open + s[i + |open|..j] + close, i)
    ensures forall k: nat :: k < i ==> !OccursAt(s, open, k)
    ensures !Contains(s[i + |open|..j], close)
  {
    LeftmostShortestFound(s, open, close);
    var c := s[i + |open|..j];
    var w := open + c + close;
    assert s[i..][..|w|] == w by {
      assert s[i..][..|open|] == open;
      assert s[j..][..|close|] == close;
    }
    forall k | 0 <= k <= |c| ensures !IsPrefix(close, c[k..]) {
      if k < |c| { SliceKeepsAbsence(s, close, i + |open|, i + |open| + k, j); }
    }
  }

  /** The match: found exactly when some opening delimiter is followed by a closing one. */
  lemma CaptureMeaning(s: string, open: string, close: string)
    requires |close| > 0
    ensures Capture(s, open, close).Some? ==>
              exists i: nat :: OccursAt(s, open + Capture(s, open, close).value + close, i)
    ensures Capture(s, open, close).Some? ==> !Contains(Capture(s, open, close).value, close)
    ensures Capture(s, open, close).None? ==>
              forall i: nat, j: nat :: OccursAt(s, open, i) && OccursAt(s, close, j) ==> j < i + |open|
  {
    match LeftmostShortest(s, open, close)
    case Some((i, j)) => CaptureFound(s, open, close, i, j);
    case None => LeftmostShortestAbsent(s, open, close);
  }

  /** The text captured by `preg_match('/<dCarQR>(.*?)<\/dCarQR>/s')`. */
  function LiteralQr(xml: string): Option<string> { Capture(xml, QrOpen, QrClose) }

  /** `//gCamFuFD/dCarQR`: the `dCarQR` elements whose parent is a `gCamFuFD`, in document order. */
  function SelectQr(n: Node, parentName: string): seq<Node>
    decreases n, 1
  {
    (if n.name == "dCarQR" && parentName == "gCamFuFD" then [n] else []) + SelectQrAll(n.children, n.name)
  }

  function SelectQrAll(cs: seq<Node>, parentName: string): seq<Node>
    decreases cs, 0
  {
    if cs == [] then [] else SelectQr(cs[0], parentName) + SelectQrAll(cs[1..], parentName)
  }

  /** `$xml->xpath('//gCamFuFD/dCarQR')` on the document whose root element is `root`. */
  function XPathQr(root: Node): seq<Node> { SelectQr(root, "") }

  lemma {:induction false} SelectQrSound(n: Node, parentName: string)
    ensures forall m :: m in SelectQr(n, parentName) ==> m.name == "dCarQR"
    decreases n, 1
  {
    SelectQrAllSound(n.children, n.name);
  }

  lemma {:induction false} SelectQrAllSound(cs: seq<Node>, parentName: string)
    ensures forall m :: m in SelectQrAll(cs, parentName) ==> m.name == "dCarQR"
    decreases cs, 0
  {
    if cs != [] {
      SelectQrSound(cs[0], parentName);
      SelectQrAllSound(cs[1..], parentName);
    }
  }

  /** Every `dCarQR` child of a `gCamFuFD` element is selected. */
  lemma {:induction false} SelectQrFindsChildren(n: Node, parentName: string)
    requires n.name == "gCamFuFD"
    ensures forall c :: c in n.children && c.name == "dCarQR" ==> c in SelectQr(n, parentName)
  {
    forall c | c in n.children && c.name == "dCarQR" ensures c in SelectQrAll(n.children, n.name) {
      SelectQrAllHasChild(n.children, n.name, c);
    }
  }

  lemma {:induction false} SelectQrAllHasChild(cs: seq<Node>, parentName: string, c: Node)
    requires parentName == "gCamFuFD" && c in cs && c.name == "dCarQR"
    ensures c in SelectQrAll(cs, parentName)
    decreases cs
  {
    if cs[0] != c {
      SelectQrAllHasChild(cs[1..], parentName, c);
    }
  }

  /** PHP's `empty()` on a string. */
  predicate PhpEmptyString(s: string) { s == "" || s == "0" }

  /**
   * `extraerQRDelXML`: the normalised URL found in the document, if any. PHP holds the
   * serialised document and the node text as UTF-8 bytes, and so does the result.
   */
  function ExtraerQr(root: Node, lib: XmlLibrary): Option<string> {
    var lit := LiteralQr(Utf8(lib.asXml(root)));
    if lit.Some? && !PhpEmptyString(lit.value) then Some(NormalizeUrlQr(lit.value))
    else if |XPathQr(root)| > 0 then Some(NormalizeUrlQr(Utf8(XPathQr(root)[0].text)))
    else None
  }

  /** `generarQRCompleto`: the extracted URL, or the public consultation URL for the CDC, as bytes. */
  function GenerarQrCompleto(root: Node, lib: XmlLibrary, cdc: string): string {
    match ExtraerQr(root, lib)
    case Some(q) => if PhpTruthy(q) then q else CdcFallbackPrefix + Utf8(cdc)
    case None => CdcFallbackPrefix + Utf8(cdc)
  }

  /** A normalised URL always holds `://`, so it is never PHP-falsy. */
  lemma NormalizedUrlTruthy(raw: string)
    ensures PhpTruthy(NormalizeUrlQr(raw))
  {
    var p := ParseUrl(Backfill(Repair(raw)));
    assert |Base(p)| >= 3;
  }

  /**
   * The QR source, in order: the first `<dCarQR>` literal when it is not empty, then the
   * first XPath match, then the CDC consultation URL.
   */
  lemma QrSourceOrder(root: Node, lib: XmlLibrary, cdc: string)
    ensures var lit := LiteralQr(Utf8(lib.asXml(root)));
            var nodes := XPathQr(root);
            var qr := GenerarQrCompleto(root, lib, cdc);
            && (lit.Some? && !PhpEmptyString(lit.value) ==> qr == NormalizeUrlQr(lit.value))
            && ((lit.None? || PhpEmptyString(lit.value)) && |nodes| > 0 ==>
                  nodes[0].name == "dCarQR" && qr == NormalizeUrlQr(Utf8(nodes[0].text)))
            && ((lit.None? || PhpEmptyString(lit.value)) && |nodes| == 0 ==> qr == CdcFallbackPrefix + Utf8(cdc))
            && PhpTruthy(qr)
  {
    var lit := LiteralQr(Utf8(lib.asXml(root)));
    if lit.Some? && !PhpEmptyString(lit.value) {
      NormalizedUrlTruthy(lit.value);
    } else if |XPathQr(root)| > 0 {
      SelectQrSound(root, "");
      assert XPathQr(root)[0] in XPathQr(root);
      NormalizedUrlTruthy(Utf8(XPathQr(root)[0].text));
    } else {
      assert |CdcFallbackPrefix + Utf8(cdc)| >= |CdcFallbackPrefix| > 1;
    }
  }

  // ---------------------------------------------------------------------------
  // The request
  // ---------------------------------------------------------------------------

  datatype HttpError = HttpError(status: int, message: string)

  /** What the PDF is rendered from; `qr` is the byte string handed to the QR encoder. */
  datatype Kude = Kude(emisor: Emisor, receptor: Receptor, documento: Documento, items: seq<Item>,
                       totales: Totales, qr: string, filas: seq<Fila>)

  const InvalidXml := HttpError(500, "Error: XML inválido")

  /** The table rows of the document: one row per item, in the item order. */
  method ArmarFilas(items: seq<Item>) returns (filas: seq<Fila>)
    ensures |filas| == |items| && forall m :: 0 <= m < |items| ==> filas[m] == FilaOf(items[m])
  {
    filas := [];
    for m := 0 to |items|
      invariant |filas| == m
      invariant forall t :: 0 <= t < m ==> filas[t] == FilaOf(items[t])
    {
      filas := filas + [FilaOf(items[m])];
    }
  }

  /** The body of the request handler up to rendering: trim, parse, extract. */
  method GenerarPdfDesdeXml(xmlConQr: string, lib: XmlLibrary) returns (res: Result<Kude, HttpError>)
    ensures var parsed := lib.parse(TrimEnvelope(xmlConQr));
            parsed.None? || SimpleXmlFalsy(parsed.value) <==> res.Failure?
    ensures res.Failure? ==> res.error == InvalidXml
    ensures res.Success? ==>
              var root := lib.parse(TrimEnvelope(xmlConQr)).value;
              var k := res.value;
              && k.emisor == EmisorOf(root) && k.receptor == ReceptorOf(root) && k.documento == DocumentoOf(root)
              && k.totales == TotalesOf(root) && ItemsAgree(root, k.items)
              && k.qr == GenerarQrCompleto(root, lib, k.documento.cdc)
              && |k.filas| == |k.items| && forall m :: 0 <= m < |k.items| ==> k.filas[m] == FilaOf(k.items[m])
  {
    var xmlContent := TrimEnvelope(xmlConQr);
    var parsed := lib.parse(xmlContent);
    if parsed.None? || SimpleXmlFalsy(parsed.value) {
      return Failure(InvalidXml);
    }
    var xml := parsed.value;
    var emisor := EmisorOf(xml);
    var receptor := ReceptorOf(xml);
    var documento := DocumentoOf(xml);
    var items := ExtraerItems(xml);
    var totales := TotalesOf(xml);
    var qrData := GenerarQrCompleto(xml, lib, documento.cdc);
    var filas := ArmarFilas(items);
    res := Success(Kude(emisor, receptor, documento, items, totales, qrData, filas));
  }
}
