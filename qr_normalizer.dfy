/**
 * Steps 4 and 5 of `normalizarUrlQr` (public/generarPdfDesdeXML.php): the SET base URL is
 * put in front of a bare query string, and the URL is rebuilt from its parts with the
 * query parameters in a fixed order and percent-encoded as RFC 3986 asks.
 *
 * PHP's `parse_url`, `parse_str` and `http_build_query(..., PHP_QUERY_RFC3986)` are
 * modelled on the subset of their behaviour that these URLs use: a query is a sequence
 * of key/value pairs with distinct keys, in first-seen order, which is what a PHP array
 * filled by `parse_str` holds.
 */
module QrNormalizer {
  import opened Wrappers
  import opened Text
  import opened QrRepair

  const SetScheme := "https"
  const SetHost := "ekuatia.set.gov.py"
  const SetPath := "/consultas/qr"

  /** The prefix put in front of a bare query string in step 4: `https://ekuatia.set.gov.py/consultas/qr?`. */
  const SetQrBase := SetScheme + "://" + SetHost + SetPath + "?"

  /** The keys that come first in the rebuilt query, in this order. */
  const Priority: seq<string> :=
    ["nVersion", "Id", "dFeEmiDE", "dRucRec", "dTotGralOpe", "dTotIVA", "cItems", "DigestValue", "IdCSC", "cHashQR"]

  // ---------------------------------------------------------------------------
  // parse_url
  // ---------------------------------------------------------------------------

  /** The components `parse_url` reports; an absent component is None. */
  datatype UrlParts = UrlParts(scheme: Option<string>, host: Option<string>, path: Option<string>, query: Option<string>)

  predicate IsColon(c: char) { c == ':' }
  predicate IsHash(c: char) { c == '#' }
  predicate IsEquals(c: char) { c == '=' }
  predicate EndsPath(c: char) { c == '?' || c == '#' }
  predicate EndsAuthority(c: char) { c == '/' || c == '?' || c == '#' }
  predicate IsQuestionOrAmp(c: char) { c == '?' || c == '&' }

  predicate IsSchemeChar(c: char) { IsAsciiLetter(c) || IsAsciiDigit(c) || c == '+' || c == '-' || c == '.' }

  /** A URL scheme: a letter followed by letters, digits, `+`, `-` or `.`. */
  predicate IsScheme(t: string) {
    |t| > 0 && IsAsciiLetter(t[0]) && forall i :: 0 <= i < |t| ==> IsSchemeChar(t[i])
  }

  function NonEmpty(t: string): Option<string> { if t == "" then None else Some(t) }

  /** The path (up to `?` or `#`) and the query (after `?`, up to `#`) of `t`. */
  function PathAndQuery(t: string): (Option<string>, Option<string>) {
    var n := SpanUntil(t, EndsPath);
    if n < |t| && t[n] == '?' then
      var q := t[n + 1..];
      (NonEmpty(t[..n]), Some(q[..SpanUntil(q, IsHash)]))
    else (NonEmpty(t[..n]), None)
  }

  /** What follows `//`: the host (port dropped), then path and query; None when the host is empty. */
  function ParseAuthority(scheme: Option<string>, t: string): Option<UrlParts> {
    var a := SpanUntil(t, EndsAuthority);
    var host := t[..SpanUntil(t[..a], IsColon)];
    if host == "" then None
    else
      var pq := PathAndQuery(t[a..]);
      Some(UrlParts(scheme, Some(host), pq.0, pq.1))
  }

  /** `parse_url($s)`; None stands for PHP's `false`. The empty string has an empty path. */
  function ParseUrl(s: string): Option<UrlParts> {
    if s == "" then Some(UrlParts(None, None, Some(""), None))
    else
    var k := SpanUntil(s, IsColon);
    if k < |s| && IsScheme(s[..k]) then AfterScheme(Some(s[..k]), s[k + 1..])
    else AfterScheme(None, s)
  }

  /** What follows the scheme and its colon (or the whole string when there is no scheme). */
  function AfterScheme(scheme: Option<string>, rest: string): Option<UrlParts> {
    if IsPrefix("//", rest) then ParseAuthority(scheme, rest[2..])
    else
      var pq := PathAndQuery(rest);
      Some(UrlParts(scheme, None, pq.0, pq.1))
  }

  /** Reading a key of `false` in PHP gives null, so a failed parse has no components. */
  function Parts(p: Option<UrlParts>): UrlParts {
    match p
    case Some(u) => u
    case None => UrlParts(None, None, None, None)
  }

  /** PHP's `??`. */
  function OrElse(o: Option<string>, default: string): string {
    match o
    case Some(x) => x
    case None => default
  }

  /** PHP's `empty()` on an array entry holding a string or null. */
  predicate PhpEmpty(o: Option<string>) { o.None? || o.value == "" || o.value == "0" }

  /** PHP's truthiness of a string: `""` and `"0"` are false. */
  predicate PhpTruthy(s: string) { s != "" && s != "0" }

  // ---------------------------------------------------------------------------
  // Step 4: scheme and host backfill
  // ---------------------------------------------------------------------------

  predicate LacksSchemeOrHost(s: string) {
    var p := ParseUrl(s);
    p.None? || PhpEmpty(p.value.scheme) || PhpEmpty(p.value.host)
  }

  /** Step 4 as a function of the cleaned string. */
  function Backfill(s: string): string {
    if LacksSchemeOrHost(s) && IndexOf(s, "nVersion=").Some? then SetQrBase + StripLeft(s, IsQuestionOrAmp) else s
  }

  // ---------------------------------------------------------------------------
  // parse_str, rawurlencode, http_build_query
  // ---------------------------------------------------------------------------

  /** A PHP array of string values in insertion order. */
  type Params = seq<(string, string)>

  predicate HasKey(ps: Params, k: string) { exists i :: 0 <= i < |ps| && ps[i].0 == k }

  predicate DistinctKeys(ps: Params) { forall i, j :: 0 <= i < j < |ps| ==> ps[i].0 != ps[j].0 }

  predicate NonEmptyKeys(ps: Params) { forall i :: 0 <= i < |ps| ==> ps[i].0 != "" }

  /** `$ps[$k]`: the value stored under `k`. */
  function Lookup(ps: Params, k: string): (r: Option<string>)
    ensures r.Some? <==> HasKey(ps, k)
    ensures r.Some? ==> (k, r.value) in ps
  {
    if ps == [] then None
    else if ps[0].0 == k then Some(ps[0].1)
    else
      var r := Lookup(ps[1..], k);
      assert HasKey(ps[1..], k) ==> HasKey(ps, k) by {
        if HasKey(ps[1..], k) { var i :| 0 <= i < |ps[1..]| && ps[1..][i].0 == k; assert ps[i + 1].0 == k; }
      }
      r
  }

  /** `$ps[$k] = $v`: overwrite in place when the key is present, append otherwise. */
  function Insert(ps: Params, k: string, v: string): Params {
    if ps == [] then [(k, v)]
    else if ps[0].0 == k then [(k, v)] + ps[1..]
    else [ps[0]] + Insert(ps[1..], k, v)
  }

  predicate IsHexDigit(c: char) { IsAsciiDigit(c) || ('a' <= c <= 'f') || ('A' <= c <= 'F') }

  function HexValue(c: char): (n: nat)
    requires IsHexDigit(c)
    ensures n < 16
  {
    if IsAsciiDigit(c) then c as int - '0' as int
    else if 'a' <= c <= 'f' then c as int - 'a' as int + 10
    else c as int - 'A' as int + 10
  }

  function HexDigitUpper(n: nat): (c: char)
    requires n < 16
    ensures IsHexDigit(c) && HexValue(c) == n
  {
    if n < 10 then ('0' as int + n) as char else ('A' as int + n - 10) as char
  }

  /** `urldecode`: `%XX` becomes the character with that code, `+` becomes a space. */
  function UrlDecode(s: string): string
    decreases |s|
  {
    if s == [] then []
    else if s[0] == '%' && |s| >= 3 && IsHexDigit(s[1]) && IsHexDigit(s[2]) then
      [(16 * HexValue(s[1]) + HexValue(s[2])) as char] + UrlDecode(s[3..])
    else if s[0] == '+' then " " + UrlDecode(s[1..])
    else [s[0]] + UrlDecode(s[1..])
  }

  /** The unreserved characters of section 2.3 of RFC 3986. */
  predicate IsUnreserved(c: char) { IsAsciiLetter(c) || IsAsciiDigit(c) || c == '-' || c == '.' || c == '_' || c == '~' }

  /** What `rawurlencode` can produce: unreserved characters, `%`, and characters outside one byte. */
  predicate IsEncodedChar(c: char) { IsUnreserved(c) || c == '%' || c as int >= 256 }

  /**
   * One byte as `rawurlencode` writes it: kept when unreserved, else `%` and two upper-case
   * hex digits. A character of 256 or more is no PHP byte; it is kept.
   */
  function EncodeChar(c: char): (r: string)
    ensures forall i :: 0 <= i < |r| ==> IsEncodedChar(r[i])
  {
    if IsUnreserved(c) || c as int >= 256 then [c]
    else ['%', HexDigitUpper(c as int / 16), HexDigitUpper(c as int % 16)]
  }

  /** `rawurlencode`: percent-encoding of a byte string, as section 2.1 of RFC 3986 describes it. */
  function RawUrlEncode(s: string): (r: string)
    ensures forall i :: 0 <= i < |r| ==> IsEncodedChar(r[i])
  {
    if s == [] then [] else EncodeChar(s[0]) + RawUrlEncode(s[1..])
  }

  /** Encoding a byte string leaves only unreserved characters and `%`. */
  lemma {:induction false} RawUrlEncodeOfBytes(s: string)
    requires IsBytes(s)
    ensures forall i :: 0 <= i < |RawUrlEncode(s)| ==> IsUnreserved(RawUrlEncode(s)[i]) || RawUrlEncode(s)[i] == '%'
    decreases |s|
  {
    if s != [] {
      RawUrlEncodeOfBytes(s[1..]);
      var e, r := EncodeChar(s[0]), RawUrlEncode(s[1..]);
      assert RawUrlEncode(s) == e + r;
      forall i | 0 <= i < |e + r| ensures IsUnreserved((e + r)[i]) || (e + r)[i] == '%' {
        if i >= |e| { assert (e + r)[i] == r[i - |e|]; }
      }
    }
  }

  /** A raw `é` in a query value goes out as its two UTF-8 bytes. */
  lemma EncodeTwoByteCharacter()
    ensures RawUrlEncode(Utf8("\U{E9}")) == "%C3%A9"
  {
    assert Utf8("\U{E9}") == ['\U{C3}', '\U{A9}'];
    assert RawUrlEncode(['\U{A9}']) == "%A9";
  }

  /** A raw `€` goes out as its three UTF-8 bytes. */
  lemma EncodeThreeByteCharacter()
    ensures RawUrlEncode(Utf8("\U{20AC}")) == "%E2%82%AC"
  {
    assert Utf8("\U{20AC}") == ['\U{E2}', '\U{82}', '\U{AC}'];
    assert RawUrlEncode(['\U{AC}']) == "%AC";
    assert RawUrlEncode(['\U{82}', '\U{AC}']) == "%82%AC";
  }

  function EncodePair(p: (string, string)): string { RawUrlEncode(p.0) + "=" + RawUrlEncode(p.1) }

  /** `http_build_query($ps, '', '&', PHP_QUERY_RFC3986)`. */
  function BuildQuery(ps: Params): string
    decreases |ps|
  {
    if ps == [] then ""
    else if |ps| == 1 then EncodePair(ps[0])
    else EncodePair(ps[0]) + "&" + BuildQuery(ps[1..])
  }

  /** One `key=value` piece of a query string stored into `acc`; a piece with an empty key is ignored. */
  function AddPiece(acc: Params, piece: string): Params {
    var e := SpanUntil(piece, IsEquals);
    var key := UrlDecode(piece[..e]);
    var value := if e < |piece| then UrlDecode(piece[e + 1..]) else "";
    if key == "" then acc else Insert(acc, key, value)
  }

  function ParseStrFrom(q: string, acc: Params): Params
    decreases |q|
  {
    var n := SpanUntil(q, IsAmpersand);
    var next := AddPiece(acc, q[..n]);
    if n == |q| then next else ParseStrFrom(q[n + 1..], next)
  }

  /** `parse_str($q, $params)`: pieces split at `&`, decoded, a repeated key keeping its first place and its last value. */
  function ParseStr(q: string): Params { ParseStrFrom(q, []) }

  // ---------------------------------------------------------------------------
  // Step 5: the fixed key order
  // ---------------------------------------------------------------------------

  /** The entry of `k` if present: what one turn of the first `foreach` adds. */
  function EntryOf(ps: Params, k: string): Params {
    match Lookup(ps, k)
    case Some(v) => [(k, v)]
    case None => []
  }

  /** The entries of `ps` whose keys are listed in `keys`, in the order of `keys`. */
  function PriorityPart(ps: Params, keys: seq<string>): Params
    decreases |keys|
  {
    if keys == [] then [] else PriorityPart(ps, keys[..|keys| - 1]) + EntryOf(ps, keys[|keys| - 1])
  }

  /** The entries of `ps` whose keys are not listed in `keys`, in the order of `ps`. */
  function OtherPart(ps: Params, keys: seq<string>): Params
    decreases |ps|
  {
    if ps == [] then []
    else OtherPart(ps[..|ps| - 1], keys) + (if ps[|ps| - 1].0 in keys then [] else [ps[|ps| - 1]])
  }

  /** The parameters in the order the rebuilt query lists them. */
  function Reorder(ps: Params): Params { PriorityPart(ps, Priority) + OtherPart(ps, Priority) }

  /** scheme://host + path, each falling back to the SET verification URL. */
  function Base(p: Option<UrlParts>): string {
    OrElse(Parts(p).scheme, SetScheme) + "://" + OrElse(Parts(p).host, SetHost) + OrElse(Parts(p).path, SetPath)
  }

  /** The parameters of the parsed URL's query, none when the query is absent or empty. */
  function QueryParams(p: Option<UrlParts>): Params {
    var query := OrElse(Parts(p).query, "");
    if query != "" then ParseStr(query) else []
  }

  /** Step 5 as a function of the backfilled string. */
  function Rebuild(s: string): string {
    var p := ParseUrl(s);
    var qs := BuildQuery(Reorder(QueryParams(p)));
    Base(p) + (if PhpTruthy(qs) then "?" + qs else "")
  }

  /** `normalizarUrlQr` as a function: repair, backfill, rebuild. */
  function NormalizeUrlQr(raw: string): string { Rebuild(Backfill(Repair(raw))) }

  // ---------------------------------------------------------------------------
  // The normaliser as the source writes it
  // ---------------------------------------------------------------------------

  /** `normalizarUrlQr`: the string is rebound step by step, as in the source. */
  method NormalizarUrlQr(raw: string) returns (url: string)
    ensures url == NormalizeUrlQr(raw)
  {
    var s := RepairSteps(raw);
    s := BackfillStep(s);
    url := RebuildStep(s);
  }

  /** Steps 1 to 3: entities, separators, duplicates and ends. */
  method RepairSteps(raw: string) returns (s: string)
    ensures s == Repair(raw)
  {
    // 1) entities
    s := DecodeEntities(raw);
    // 2) separators
    s := ReplaceAll(s, "&amp;", "&");
    s := CollapseAmpSemicolons(s);
    s := RepairSemicolonSeparators(s);
    // 3) duplicates and ends
    s := CollapseAmpRuns(s);
    s := ReplaceAll(s, "?&", "?");
    s := PhpTrim(s);
  }

  /** Step 4: a string without scheme or host that carries `nVersion=` gets the SET base. */
  method BackfillStep(s0: string) returns (s: string)
    ensures s == Backfill(s0)
  {
    s := s0;
    var p := ParseUrl(s);
    if p.None? || PhpEmpty(p.value.scheme) || PhpEmpty(p.value.host) {
      if IndexOf(s, "nVersion=").Some? {
        s := SetQrBase + StripLeft(s, IsQuestionOrAmp);
      }
    }
  }

  /** Step 5: base from the parsed parts with SET defaults, then the reordered query. */
  method RebuildStep(s: string) returns (url: string)
    ensures url == Rebuild(s)
  {
    var p := ParseUrl(s);
    var base := OrElse(Parts(p).scheme, SetScheme) + "://" + OrElse(Parts(p).host, SetHost) + OrElse(Parts(p).path, SetPath);
    var query := OrElse(Parts(p).query, "");
    var params: Params := [];
    if query != "" {
      params := ParseStr(query);
    }
    ParseStrDistinct(query);
    var ordered := ReorderParams(params, Priority);
    var qs := BuildQuery(ordered);
    url := base + (if PhpTruthy(qs) then "?" + qs else "");
  }

  /** The two `foreach` loops of step 5: priority keys in their order, then the rest in theirs. */
  method ReorderParams(params: Params, keys: seq<string>) returns (ordered: Params)
    requires DistinctKeys(params)
    ensures ordered == PriorityPart(params, keys) + OtherPart(params, keys)
  {
    ordered := [];
    var i := 0;
    while i < |keys|
      invariant 0 <= i <= |keys|
      invariant ordered == PriorityPart(params, keys[..i])
    {
      var k := keys[i];
      if HasKey(params, k) {
        ordered := ordered + [(k, Lookup(params, k).value)];
      }
      assert keys[..i + 1][..i] == keys[..i];
      i := i + 1;
    }
    assert keys[..|keys|] == keys;
    var j := 0;
    while j < |params|
      invariant 0 <= j <= |params|
      invariant ordered == PriorityPart(params, keys) + OtherPart(params[..j], keys)
    {
      var (k, v) := params[j];
      HasKeyInOrdered(params, keys, j);
      if !HasKey(ordered, k) {
        ordered := ordered + [(k, v)];
      }
      assert params[..j + 1][..j] == params[..j];
      j := j + 1;
    }
    assert params[..|params|] == params;
  }


  // ---------------------------------------------------------------------------
  // Lemmas about keys
  // ---------------------------------------------------------------------------

  lemma HasKeyConcat(a: Params, b: Params, k: string)
    ensures HasKey(a + b, k) <==> HasKey(a, k) || HasKey(b, k)
  {
    var s := a + b;
    if HasKey(s, k) {
      var i :| 0 <= i < |s| && s[i].0 == k;
      if i < |a| { assert a[i] == s[i]; } else { assert b[i - |a|] == s[i]; }
    }
    if HasKey(a, k) {
      var i :| 0 <= i < |a| && a[i].0 == k;
      assert s[i] == a[i];
    }
    if HasKey(b, k) {
      var i :| 0 <= i < |b| && b[i].0 == k;
      assert s[|a| + i] == b[i];
    }
  }

  lemma {:induction false} PriorityPartKeys(ps: Params, keys: seq<string>, k: string)
    ensures HasKey(PriorityPart(ps, keys), k) <==> k in keys && HasKey(ps, k)
    decreases |keys|
  {
    if keys != [] {
      var init := keys[..|keys| - 1];
      var last := keys[|keys| - 1];
      PriorityPartKeys(ps, init, k);
      HasKeyConcat(PriorityPart(ps, init), EntryOf(ps, last), k);
      assert keys == init + [last];
      assert HasKey(EntryOf(ps, last), k) <==> k == last && HasKey(ps, k) by {
        if HasKey(EntryOf(ps, last), k) { var i :| 0 <= i < |EntryOf(ps, last)| && EntryOf(ps, last)[i].0 == k; }
        if k == last && HasKey(ps, k) { assert EntryOf(ps, last)[0].0 == k; }
      }
    }
  }

  lemma {:induction false} OtherPartKeys(ps: Params, keys: seq<string>, k: string)
    ensures HasKey(OtherPart(ps, keys), k) <==> k !in keys && HasKey(ps, k)
    decreases |ps|
  {
    if ps != [] {
      var init := ps[..|ps| - 1];
      var last := ps[|ps| - 1];
      var tail: Params := if last.0 in keys then [] else [last];
      OtherPartKeys(init, keys, k);
      HasKeyConcat(OtherPart(init, keys), tail, k);
      assert ps == init + [last];
      HasKeyConcat(init, [last], k);
      assert HasKey([last], k) <==> last.0 == k by {
        if last.0 == k { assert [last][0].0 == k; }
      }
      assert HasKey(tail, k) <==> last.0 == k && k !in keys by {
        if tail != [] && last.0 == k { assert tail[0].0 == k; }
      }
      if HasKey(OtherPart(ps, keys), k) && HasKey(OtherPart(init, keys), k) && k !in keys {
        assert HasKey(ps, k);
      }
    }
  }

  lemma HasKeyPrefixDistinct(ps: Params, j: nat)
    requires j < |ps| && DistinctKeys(ps)
    ensures !HasKey(ps[..j], ps[j].0)
  {
    forall i | 0 <= i < j ensures ps[..j][i].0 != ps[j].0 {
      assert ps[..j][i] == ps[i];
    }
  }

  /** In the second `foreach`, a key is already placed exactly when it is a priority key. */
  lemma HasKeyInOrdered(params: Params, keys: seq<string>, j: nat)
    requires j < |params| && DistinctKeys(params)
    ensures HasKey(PriorityPart(params, keys) + OtherPart(params[..j], keys), params[j].0)
            <==> params[j].0 in keys
  {
    var k := params[j].0;
    HasKeyConcat(PriorityPart(params, keys), OtherPart(params[..j], keys), k);
    PriorityPartKeys(params, keys, k);
    OtherPartKeys(params[..j], keys, k);
    HasKeyPrefixDistinct(params, j);
    assert HasKey(params, k) by { assert params[j].0 == k; }
  }

  lemma {:induction false} InsertDistinct(ps: Params, k: string, v: string)
    requires DistinctKeys(ps)
    ensures DistinctKeys(Insert(ps, k, v))
    ensures forall x :: HasKey(Insert(ps, k, v), x) <==> HasKey(ps, x) || x == k
    decreases |ps|
  {
    var r := Insert(ps, k, v);
    if ps == [] {
      assert HasKey(r, k) by { assert r[0].0 == k; }
    } else if ps[0].0 == k {
      forall x ensures HasKey(r, x) <==> HasKey(ps, x) || x == k {
        if HasKey(ps, x) { var i :| 0 <= i < |ps| && ps[i].0 == x; assert r[i].0 == ps[i].0; }
        if HasKey(r, x) { var i :| 0 <= i < |r| && r[i].0 == x; if i > 0 { assert ps[i].0 == x; } }
        if x == k { assert r[0].0 == k; }
      }
    } else {
      InsertDistinct(ps[1..], k, v);
      var t := Insert(ps[1..], k, v);
      assert r == [ps[0]] + t;
      assert !HasKey(ps[1..], ps[0].0) by {
        forall i | 0 <= i < |ps[1..]| ensures ps[1..][i].0 != ps[0].0 { assert ps[1..][i] == ps[i + 1]; }
      }
      assert !HasKey(t, ps[0].0);
      forall a, b | 0 <= a < b < |r| ensures r[a].0 != r[b].0 {
        if a == 0 { assert r[b] == t[b - 1]; assert HasKey(t, r[b].0); } else { assert r[a] == t[a - 1] && r[b] == t[b - 1]; }
      }
      forall x ensures HasKey(r, x) <==> HasKey(ps, x) || x == k {
        HasKeyConcat([ps[0]], t, x);
        HasKeyConcat([ps[0]], ps[1..], x);
        assert ps == [ps[0]] + ps[1..];
      }
    }
  }

  /** Storing one piece keeps the keys distinct and non-empty. */
  lemma AddPieceDistinct(acc: Params, piece: string)
    requires DistinctKeys(acc) && NonEmptyKeys(acc)
    ensures DistinctKeys(AddPiece(acc, piece)) && NonEmptyKeys(AddPiece(acc, piece))
  {
    var e := SpanUntil(piece, IsEquals);
    var key := UrlDecode(piece[..e]);
    var value := if e < |piece| then UrlDecode(piece[e + 1..]) else "";
    var next := AddPiece(acc, piece);
    if key != "" {
      InsertDistinct(acc, key, value);
      assert next == Insert(acc, key, value);
      assert !HasKey(acc, "");
      forall i | 0 <= i < |next| ensures next[i].0 != "" {
        assert HasKey(next, next[i].0);
      }
    }
  }

  /** Each key once and never the empty key. */
  predicate WellKeyed(ps: Params) { DistinctKeys(ps) && NonEmptyKeys(ps) }

  lemma {:induction false} ParseStrFromDistinct(q: string, acc: Params)
    requires WellKeyed(acc)
    ensures WellKeyed(ParseStrFrom(q, acc))
    decreases |q|
  {
    var n := SpanUntil(q, IsAmpersand);
    var next := AddPiece(acc, q[..n]);
    AddPieceDistinct(acc, q[..n]);
    if n < |q| {
      ParseStrFromDistinct(q[n + 1..], next);
    }
  }



  /** `parse_str` yields each key once, and never the empty key. */
  lemma ParseStrDistinct(q: string)
    ensures DistinctKeys(ParseStr(q)) && NonEmptyKeys(ParseStr(q))
  {
    ParseStrFromDistinct(q, []);
  }

  // ---------------------------------------------------------------------------
  // Round trip of the query string
  // ---------------------------------------------------------------------------

  lemma DecodeEncodedChar(c: char, rest: string)
    ensures UrlDecode(EncodeChar(c) + rest) == [c] + UrlDecode(rest)
  {
    var e := EncodeChar(c);
    if IsUnreserved(c) || c as int >= 256 {
      assert (e + rest)[1..] == rest;
    } else {
      assert (e + rest)[3..] == rest;
      assert 16 * (c as int / 16) + c as int % 16 == c as int;
    }
  }

  /** `urldecode` undoes `rawurlencode`. */
  lemma {:induction false} DecodeRawUrlEncode(s: string)
    ensures UrlDecode(RawUrlEncode(s)) == s
  {
    if s != [] {
      DecodeEncodedChar(s[0], RawUrlEncode(s[1..]));
      DecodeRawUrlEncode(s[1..]);
    }
  }

  lemma {:induction false} InsertNew(ps: Params, k: string, v: string)
    requires !HasKey(ps, k)
    ensures Insert(ps, k, v) == ps + [(k, v)]
    decreases |ps|
  {
    if ps != [] {
      assert ps[0].0 != k;
      assert !HasKey(ps[1..], k) by {
        forall i | 0 <= i < |ps[1..]| ensures ps[1..][i].0 != k { assert ps[1..][i] == ps[i + 1]; }
      }
      InsertNew(ps[1..], k, v);
      assert ps == [ps[0]] + ps[1..];
    }
  }

  /** One encoded pair is stored back as the pair it came from. */
  lemma AddEncodedPiece(acc: Params, p: (string, string))
    requires p.0 != "" && !HasKey(acc, p.0)
    ensures AddPiece(acc, EncodePair(p)) == acc + [p]
  {
    var ek := RawUrlEncode(p.0);
    var ev := RawUrlEncode(p.1);
    var piece := EncodePair(p);
    assert piece == ek + ("=" + ev);
    SpanUntilPrefix(ek, "=" + ev, IsEquals);
    var e := SpanUntil(piece, IsEquals);
    assert e == |ek|;
    assert piece[..e] == ek;
    assert piece[e + 1..] == ev;
    DecodeRawUrlEncode(p.0);
    DecodeRawUrlEncode(p.1);
    InsertNew(acc, p.0, p.1);
  }

  lemma NoAmpersandInPair(p: (string, string))
    ensures forall i :: 0 <= i < |EncodePair(p)| ==> !IsAmpersand(EncodePair(p)[i])
  {
    var ek := RawUrlEncode(p.0);
    var ev := RawUrlEncode(p.1);
    forall i | 0 <= i < |EncodePair(p)| ensures !IsAmpersand(EncodePair(p)[i]) {
      if i < |ek| { assert EncodePair(p)[i] == ek[i]; }
      else if i > |ek| { assert EncodePair(p)[i] == ev[i - |ek| - 1]; }
    }
  }

  /** A piece without `&` followed by a text `r` that starts with `&`. */
  lemma PieceThenRest(first: string, r: string)
    requires forall i :: 0 <= i < |first| ==> !IsAmpersand(first[i])
    requires |r| > 0 && r[0] == '&'
    ensures SpanUntil(first + r, IsAmpersand) == |first|
    ensures (first + r)[..|first|] == first
    ensures (first + r)[|first| + 1..] == r[1..]
  {
    assert IsAmpersand(r[0]);
    SpanUntilPrefix(first, r, IsAmpersand);
    assert (first + r)[..|first|] == first;
    assert (first + r)[|first| + 1..] == r[1..];
  }

  lemma LastPiece(first: string)
    requires forall i :: 0 <= i < |first| ==> !IsAmpersand(first[i])
    ensures SpanUntil(first, IsAmpersand) == |first|
  {
    SpanUntilPrefix(first, "", IsAmpersand);
    assert first + "" == first;
  }

  /** The first piece of a built query is the first encoded pair. */
  lemma BuildQueryFirstPiece(ps: Params)
    requires ps != []
    ensures SpanUntil(BuildQuery(ps), IsAmpersand) == |EncodePair(ps[0])|
    ensures BuildQuery(ps)[..|EncodePair(ps[0])|] == EncodePair(ps[0])
  {
    var first := EncodePair(ps[0]);
    NoAmpersandInPair(ps[0]);
    if |ps| == 1 {
      LastPiece(first);
    } else {
      var rest := BuildQuery(ps[1..]);
      var r := "&" + rest;
      assert r[0] == '&' && r[1..] == rest;
      assert BuildQuery(ps) == first + r;
      PieceThenRest(first, r);
    }
  }

  /** A built query ends with its first pair exactly when it has one pair; otherwise the rest follows an `&`. */
  lemma BuildQueryRest(ps: Params)
    requires ps != []
    ensures |ps| > 1 ==> BuildQuery(ps)[|EncodePair(ps[0])| + 1..] == BuildQuery(ps[1..])
    ensures |ps| == 1 <==> |BuildQuery(ps)| == |EncodePair(ps[0])|
  {
    if |ps| > 1 {
      var first, rest := EncodePair(ps[0]), BuildQuery(ps[1..]);
      assert BuildQuery(ps) == first + "&" + rest;
      assert (first + "&" + rest)[|first| + 1..] == rest;
    }
  }

  lemma SplitDistinct(acc: Params, ps: Params)
    requires ps != [] && DistinctKeys(acc + ps)
    ensures !HasKey(acc, ps[0].0)
    ensures (acc + [ps[0]]) + ps[1..] == acc + ps
  {
    forall i | 0 <= i < |acc| ensures acc[i].0 != ps[0].0 {
      assert (acc + ps)[i] == acc[i] && (acc + ps)[|acc|] == ps[0];
    }
    assert (acc + [ps[0]]) + ps[1..] == acc + ps;
  }

  lemma {:induction false} ParseStrFromBuildQuery(ps: Params, acc: Params)
    requires ps != [] && NonEmptyKeys(ps) && DistinctKeys(acc + ps)
    ensures ParseStrFrom(BuildQuery(ps), acc) == acc + ps
    decreases |ps|
  {
    BuildQueryFirstPiece(ps);
    BuildQueryRest(ps);
    SplitDistinct(acc, ps);
    AddEncodedPiece(acc, ps[0]);
    if |ps| > 1 {
      assert NonEmptyKeys(ps[1..]) by {
        forall i | 0 <= i < |ps[1..]| ensures ps[1..][i].0 != "" { assert ps[1..][i] == ps[i + 1]; }
      }
      ParseStrFromBuildQuery(ps[1..], acc + [ps[0]]);
    }
  }

  /** `parse_str` reads back what `http_build_query` wrote, for distinct non-empty keys. */
  lemma ParseStrBuildQuery(ps: Params)
    requires NonEmptyKeys(ps) && DistinctKeys(ps)
    ensures ParseStr(BuildQuery(ps)) == ps
  {
    if ps == [] {
      assert ParseStr("") == AddPiece([], "");
    } else {
      assert [] + ps == ps;
      ParseStrFromBuildQuery(ps, []);
    }
  }

  /** The rebuilt query is appended exactly when there are parameters: it is never `""` or `"0"` otherwise. */
  lemma BuildQueryTruthy(ps: Params)
    ensures PhpTruthy(BuildQuery(ps)) <==> ps != []
  {
    if ps != [] {
      var first := EncodePair(ps[0]);
      var ek := RawUrlEncode(ps[0].0);
      assert first[|ek|] == '=';
      if |ps| == 1 {
        assert BuildQuery(ps) == first;
      } else {
        assert BuildQuery(ps) == first + "&" + BuildQuery(ps[1..]);
        assert BuildQuery(ps)[|ek|] == '=';
      }
    }
  }

  // ---------------------------------------------------------------------------
  // The fixed order is a reordering
  // ---------------------------------------------------------------------------

  /** The position of the first occurrence of `k` in `xs`. */
  function IndexIn(xs: seq<string>, k: string): (r: nat)
    requires k in xs
    ensures r < |xs| && xs[r] == k
    ensures forall m :: 0 <= m < r ==> xs[m] != k
  {
    if xs[0] == k then 0 else 1 + IndexIn(xs[1..], k)
  }

  /** The keys of `ps` in order. */
  function KeysOf(ps: Params): (r: seq<string>)
    ensures |r| == |ps| && forall i :: 0 <= i < |ps| ==> r[i] == ps[i].0
  {
    seq(|ps|, i requires 0 <= i < |ps| => ps[i].0)
  }

  predicate Distinct(xs: seq<string>) { forall i, j :: 0 <= i < j < |xs| ==> xs[i] != xs[j] }

  lemma IndexInUnique(xs: seq<string>, r: nat)
    requires r < |xs| && forall m :: 0 <= m < r ==> xs[m] != xs[r]
    ensures IndexIn(xs, xs[r]) == r
  {
  }

  lemma IndexInPrefix(xs: seq<string>, n: nat, k: string)
    requires n <= |xs| && k in xs[..n]
    ensures k in xs && IndexIn(xs, k) == IndexIn(xs[..n], k)
  {
    var r := IndexIn(xs[..n], k);
    assert xs[r] == k;
    IndexInUnique(xs, r);
  }

  lemma PriorityDistinct()
    ensures Distinct(Priority)
  {
  }

  lemma LookupDistinct(ps: Params, e: (string, string))
    requires DistinctKeys(ps) && e in ps
    ensures Lookup(ps, e.0) == Some(e.1)
  {
    var v := Lookup(ps, e.0).value;
    var a :| 0 <= a < |ps| && ps[a] == (e.0, v);
    var b :| 0 <= b < |ps| && ps[b] == e;
  }

  lemma {:induction false} PriorityPartMembers(ps: Params, keys: seq<string>, e: (string, string))
    requires DistinctKeys(ps)
    ensures e in PriorityPart(ps, keys) <==> e in ps && e.0 in keys
    decreases |keys|
  {
    if keys != [] {
      var init := keys[..|keys| - 1];
      var last := keys[|keys| - 1];
      PriorityPartMembers(ps, init, e);
      assert keys == init + [last];
      if e in ps && e.0 == last { LookupDistinct(ps, e); }
    }
  }

  lemma {:induction false} OtherPartMembers(ps: Params, keys: seq<string>, e: (string, string))
    ensures e in OtherPart(ps, keys) <==> e in ps && e.0 !in keys
    decreases |ps|
  {
    if ps != [] {
      var init := ps[..|ps| - 1];
      OtherPartMembers(init, keys, e);
      assert ps == init + [ps[|ps| - 1]];
    }
  }

  lemma {:induction false} PriorityPartOrder(ps: Params, keys: seq<string>)
    requires Distinct(keys)
    ensures forall i :: 0 <= i < |PriorityPart(ps, keys)| ==> PriorityPart(ps, keys)[i].0 in keys
    ensures forall i, j :: 0 <= i < j < |PriorityPart(ps, keys)| ==>
              PriorityPart(ps, keys)[i].0 in keys && PriorityPart(ps, keys)[j].0 in keys &&
              IndexIn(keys, PriorityPart(ps, keys)[i].0) < IndexIn(keys, PriorityPart(ps, keys)[j].0)
    decreases |keys|
  {
    if keys != [] {
      var n := |keys| - 1;
      var init := keys[..n];
      var last := keys[n];
      var p' := PriorityPart(ps, init);
      var p := PriorityPart(ps, keys);
      var entry := EntryOf(ps, last);
      PriorityPartOrder(ps, init);
      assert p == p' + entry;
      assert forall x :: x in init ==> x in keys;
      IndexInUnique(keys, n);
      forall i | 0 <= i < |p'| ensures p'[i].0 in keys && IndexIn(keys, p'[i].0) == IndexIn(init, p'[i].0) < n {
        IndexInPrefix(keys, n, p'[i].0);
      }
      forall i | 0 <= i < |p| ensures p[i].0 in keys {
        if i >= |p'| { assert p[i] == entry[i - |p'|]; }
      }
      forall i, j | 0 <= i < j < |p| ensures IndexIn(keys, p[i].0) < IndexIn(keys, p[j].0) {
        if j < |p'| {
          assert p[i] == p'[i] && p[j] == p'[j];
        } else {
          assert p[j] == entry[j - |p'|] && p[i] == p'[i];
        }
      }
    }
  }

  lemma {:induction false} OtherPartOrder(ps: Params, keys: seq<string>)
    requires DistinctKeys(ps)
    ensures forall i :: 0 <= i < |OtherPart(ps, keys)| ==> OtherPart(ps, keys)[i].0 in KeysOf(ps)
    ensures forall i, j :: 0 <= i < j < |OtherPart(ps, keys)| ==>
              OtherPart(ps, keys)[i].0 in KeysOf(ps) && OtherPart(ps, keys)[j].0 in KeysOf(ps) &&
              IndexIn(KeysOf(ps), OtherPart(ps, keys)[i].0) < IndexIn(KeysOf(ps), OtherPart(ps, keys)[j].0)
    decreases |ps|
  {
    if ps != [] {
      var n := |ps| - 1;
      var init := ps[..n];
      var last := ps[n];
      var o' := OtherPart(init, keys);
      var o := OtherPart(ps, keys);
      var tail: Params := if last.0 in keys then [] else [last];
      var ks := KeysOf(ps);
      assert DistinctKeys(init) by {
        forall a, b | 0 <= a < b < |init| ensures init[a].0 != init[b].0 { assert init[a] == ps[a] && init[b] == ps[b]; }
      }
      OtherPartOrder(init, keys);
      assert o == o' + tail;
      assert KeysOf(init) == ks[..n];
      assert Distinct(ks);
      IndexInUnique(ks, n);
      forall i | 0 <= i < |o'| ensures o'[i].0 in ks && IndexIn(ks, o'[i].0) == IndexIn(KeysOf(init), o'[i].0) < n {
        IndexInPrefix(ks, n, o'[i].0);
      }
      forall i | 0 <= i < |o| ensures o[i].0 in ks {
        if i >= |o'| { assert o[i] == last && ks[n] == last.0; }
      }
      forall i, j | 0 <= i < j < |o| ensures IndexIn(ks, o[i].0) < IndexIn(ks, o[j].0) {
        if j < |o'| {
          assert o[i] == o'[i] && o[j] == o'[j];
        } else {
          assert o[j] == last && o[i] == o'[i];
        }
      }
    }
  }

  lemma {:induction false} DistinctCard(ps: Params)
    requires DistinctKeys(ps)
    ensures |set e | e in ps| == |ps|
    decreases |ps|
  {
    if ps != [] {
      var n := |ps| - 1;
      var init := ps[..n];
      assert DistinctKeys(init) by {
        forall a, b | 0 <= a < b < |init| ensures init[a].0 != init[b].0 { assert init[a] == ps[a] && init[b] == ps[b]; }
      }
      DistinctCard(init);
      assert ps == init + [ps[n]];
      assert (set e | e in ps) == (set e | e in init) + {ps[n]};
      assert ps[n] !in init by {
        forall a | 0 <= a < n ensures init[a] != ps[n] { assert init[a] == ps[a]; }
      }
    }
  }

  /** The rebuilt query holds each key once. */
  lemma ReorderDistinct(ps: Params)
    requires DistinctKeys(ps)
    ensures DistinctKeys(Reorder(ps))
  {
    var pp := PriorityPart(ps, Priority);
    var op := OtherPart(ps, Priority);
    var r := Reorder(ps);
    PriorityDistinct();
    PriorityPartOrder(ps, Priority);
    OtherPartOrder(ps, Priority);
    forall i, j | 0 <= i < j < |r| ensures r[i].0 != r[j].0 {
      if j < |pp| {
        assert r[i] == pp[i] && r[j] == pp[j];
      } else if i >= |pp| {
        assert r[i] == op[i - |pp|] && r[j] == op[j - |pp|];
      } else {
        assert r[i] == pp[i] && r[j] == op[j - |pp|];
        assert r[i].0 in Priority;
        OtherPartMembers(ps, Priority, r[j]);
      }
    }
  }

  /** The rebuilt query holds the same pairs as the parsed one, as many of them: a permutation. */
  lemma ReorderPermutes(ps: Params)
    requires DistinctKeys(ps)
    ensures forall e :: e in Reorder(ps) <==> e in ps
    ensures |Reorder(ps)| == |ps|
  {
    forall e ensures e in Reorder(ps) <==> e in ps {
      PriorityPartMembers(ps, Priority, e);
      OtherPartMembers(ps, Priority, e);
    }
    ReorderDistinct(ps);
    DistinctCard(ps);
    DistinctCard(Reorder(ps));
    assert (set e | e in Reorder(ps)) == (set e | e in ps);
  }

  /** Priority keys come first, in the order of the priority list. */
  lemma ReorderPriorityFirst(ps: Params)
    ensures forall i, j :: 0 <= i < j < |Reorder(ps)| && Reorder(ps)[j].0 in Priority ==>
              Reorder(ps)[i].0 in Priority && IndexIn(Priority, Reorder(ps)[i].0) < IndexIn(Priority, Reorder(ps)[j].0)
  {
    var pp := PriorityPart(ps, Priority);
    var op := OtherPart(ps, Priority);
    var r := Reorder(ps);
    PriorityDistinct();
    PriorityPartOrder(ps, Priority);
    forall i, j | 0 <= i < j < |r| && r[j].0 in Priority
      ensures r[i].0 in Priority && IndexIn(Priority, r[i].0) < IndexIn(Priority, r[j].0)
    {
      if j >= |pp| {
        assert r[j] == op[j - |pp|];
        OtherPartMembers(ps, Priority, r[j]);
      }
      assert r[i] == pp[i] && r[j] == pp[j];
    }
  }

  /** Every entry of the priority part has a listed key. */
  lemma PriorityPartInKeys(ps: Params, keys: seq<string>)
    ensures forall i :: 0 <= i < |PriorityPart(ps, keys)| ==> PriorityPart(ps, keys)[i].0 in keys
  {
    var pp := PriorityPart(ps, keys);
    forall i | 0 <= i < |pp| ensures pp[i].0 in keys {
      assert HasKey(pp, pp[i].0);
      PriorityPartKeys(ps, keys, pp[i].0);
    }
  }

  /** An entry with an unlisted key lies past a part whose keys are all listed. */
  lemma PastListedPart(pp: Params, op: Params, keys: seq<string>, i: nat)
    requires forall k :: 0 <= k < |pp| ==> pp[k].0 in keys
    requires i < |pp + op| && (pp + op)[i].0 !in keys
    ensures |pp| <= i && (pp + op)[i] == op[i - |pp|]
  {
    assert forall k :: 0 <= k < |pp| ==> (pp + op)[k] == pp[k];
  }

  /** Every entry of the other part has an unlisted key. */
  lemma OtherPartUnlisted(ps: Params, keys: seq<string>)
    ensures forall i :: 0 <= i < |OtherPart(ps, keys)| ==> OtherPart(ps, keys)[i].0 !in keys
  {
    var op := OtherPart(ps, keys);
    forall i | 0 <= i < |op| ensures op[i].0 !in keys {
      OtherPartMembers(ps, keys, op[i]);
    }
  }

  /**
   * In `pp + op`, where `pp` holds only listed keys and `op` only unlisted ones kept in the
   * order of `ks`, an entry with an unlisted key is followed only by such entries, in that order.
   */
  lemma ConcatOrderAt(pp: Params, op: Params, keys: seq<string>, ks: seq<string>, i: nat, j: nat)
    requires forall k :: 0 <= k < |pp| ==> pp[k].0 in keys
    requires forall k :: 0 <= k < |op| ==> op[k].0 !in keys
    requires forall a, b :: 0 <= a < b < |op| ==>
               op[a].0 in ks && op[b].0 in ks && IndexIn(ks, op[a].0) < IndexIn(ks, op[b].0)
    requires i < j < |pp + op| && (pp + op)[i].0 !in keys
    ensures (pp + op)[j].0 !in keys && (pp + op)[i].0 in ks && (pp + op)[j].0 in ks
    ensures IndexIn(ks, (pp + op)[i].0) < IndexIn(ks, (pp + op)[j].0)
  {
    PastListedPart(pp, op, keys, i);
    assert (pp + op)[j] == op[j - |pp|];
  }

  /** Entries with unlisted keys follow in the order of `ps`, for any list `keys`. */
  lemma OthersOrderFor(ps: Params, keys: seq<string>, r: Params)
    requires DistinctKeys(ps) && r == PriorityPart(ps, keys) + OtherPart(ps, keys)
    ensures forall i, j :: 0 <= i < j < |r| && r[i].0 !in keys ==>
              r[j].0 !in keys && r[i].0 in KeysOf(ps) && r[j].0 in KeysOf(ps) &&
              IndexIn(KeysOf(ps), r[i].0) < IndexIn(KeysOf(ps), r[j].0)
  {
    var pp := PriorityPart(ps, keys);
    var op := OtherPart(ps, keys);
    PriorityPartInKeys(ps, keys);
    OtherPartUnlisted(ps, keys);
    OtherPartOrder(ps, keys);
    forall i, j | 0 <= i < j < |r| && r[i].0 !in keys
      ensures r[j].0 !in keys && r[i].0 in KeysOf(ps) && r[j].0 in KeysOf(ps) &&
              IndexIn(KeysOf(ps), r[i].0) < IndexIn(KeysOf(ps), r[j].0)
    {
      ConcatOrderAt(pp, op, keys, KeysOf(ps), i, j);
    }
  }

  /** The other keys follow in the order in which the parsed query first listed them. */
  lemma ReorderKeepsOthersOrder(ps: Params)
    requires DistinctKeys(ps)
    ensures forall i, j :: 0 <= i < j < |Reorder(ps)| && Reorder(ps)[i].0 !in Priority ==>
              Reorder(ps)[j].0 !in Priority &&
              Reorder(ps)[i].0 in KeysOf(ps) && Reorder(ps)[j].0 in KeysOf(ps) &&
              IndexIn(KeysOf(ps), Reorder(ps)[i].0) < IndexIn(KeysOf(ps), Reorder(ps)[j].0)
  {
    OthersOrderFor(ps, Priority, Reorder(ps));
  }

  // ---------------------------------------------------------------------------
  // The normalised URL
  // ---------------------------------------------------------------------------

  predicate PlainHost(host: string) {
    host != "" && forall i :: 0 <= i < |host| ==> !EndsAuthority(host[i]) && !IsColon(host[i])
  }

  predicate PlainPath(path: string) {
    path != "" && path[0] == '/' && forall i :: 0 <= i < |path| ==> !EndsPath(path[i])
  }

  lemma PathParses(path: string, t: string)
    requires PlainPath(path)
    ensures PathAndQuery(path + "?" + t) == (Some(path), Some(t[..SpanUntil(t, IsHash)]))
  {
    var u := path + "?" + t;
    assert u == path + ("?" + t);
    SpanUntilPrefix(path, "?" + t, EndsPath);
    assert u[..|path|] == path;
    assert u[|path| + 1..] == t;
  }

  lemma AuthorityParses(scheme: string, host: string, path: string, t: string)
    requires PlainHost(host) && PlainPath(path)
    ensures ParseAuthority(Some(scheme), host + path + "?" + t)
            == Some(UrlParts(Some(scheme), Some(host), Some(path), Some(t[..SpanUntil(t, IsHash)])))
  {
    var v := path + "?" + t;
    var u := host + path + "?" + t;
    assert u == host + v;
    assert v[0] == '/';
    SpanUntilPrefix(host, v, EndsAuthority);
    assert u[..|host|] == host;
    SpanUntilAll(host, IsColon);
    assert u[|host|..] == v;
    PathParses(path, t);
  }

  /** After `//` comes the authority. */
  lemma AfterSchemeAuthority(scheme: Option<string>, w: string)
    ensures AfterScheme(scheme, "//" + w) == ParseAuthority(scheme, w)
  {
    var rest := "//" + w;
    assert rest[..2] == "//";
    assert rest[2..] == w;
  }

  /** The first colon of `scheme + r` is the one that starts `r`. */
  lemma SchemeSplit(scheme: string, r: string)
    requires IsScheme(scheme) && |r| > 0 && r[0] == ':'
    ensures SpanUntil(scheme + r, IsColon) == |scheme|
    ensures (scheme + r)[..|scheme|] == scheme && (scheme + r)[|scheme| + 1..] == r[1..]
  {
    assert forall i :: 0 <= i < |scheme| ==> !IsColon(scheme[i]);
    assert IsColon(r[0]);
    SpanUntilPrefix(scheme, r, IsColon);
    assert (scheme + r)[..|scheme|] == scheme;
    assert (scheme + r)[|scheme| + 1..] == r[1..];
  }

  /** `scheme://host/path?query` parses into those four parts, the query ending at `#`. */
  lemma UrlParses(scheme: string, host: string, path: string, t: string)
    requires IsScheme(scheme) && PlainHost(host) && PlainPath(path)
    ensures ParseUrl(scheme + "://" + host + path + "?" + t)
            == Some(UrlParts(Some(scheme), Some(host), Some(path), Some(t[..SpanUntil(t, IsHash)])))
  {
    var w := host + path + "?" + t;
    var r := "://" + w;
    var s := scheme + "://" + host + path + "?" + t;
    assert s == scheme + r;
    assert r[0] == ':';
    assert r[1..] == "//" + w;
    SchemeSplit(scheme, r);
    AfterSchemeAuthority(Some(scheme), w);
    AuthorityParses(scheme, host, path, t);
  }

  /** A string the backfill step produced parses with the SET scheme, host and path. */
  lemma SetBaseParses(t: string)
    ensures ParseUrl(SetQrBase + t)
            == Some(UrlParts(Some(SetScheme), Some(SetHost), Some(SetPath), Some(t[..SpanUntil(t, IsHash)])))
  {
    SetQrBaseSplit(t);
    SetPartsPlain();
    UrlParses(SetScheme, SetHost, SetPath, t);
  }

  lemma SetQrBaseSplit(t: string)
    ensures SetQrBase + t == SetScheme + "://" + SetHost + SetPath + "?" + t
  {
  }

  lemma SetPartsPlain()
    ensures IsScheme(SetScheme) && PlainHost(SetHost) && PlainPath(SetPath)
  {
    assert IsScheme(SetScheme);
    assert PlainHost(SetHost);
  }

  /**
   * When the repaired string lacks a scheme or a host but carries `nVersion=`, the backfilled
   * string parses as the SET verification URL with the remaining text as its query.
   */
  lemma BackfillSuppliesSetUrl(s: string)
    requires LacksSchemeOrHost(s) && IndexOf(s, "nVersion=").Some?
    ensures ParseUrl(Backfill(s)) == Some(UrlParts(Some(SetScheme), Some(SetHost), Some(SetPath),
              Some(StripLeft(s, IsQuestionOrAmp)[..SpanUntil(StripLeft(s, IsQuestionOrAmp), IsHash)])))
  {
    SetBaseParses(StripLeft(s, IsQuestionOrAmp));
  }

  /** A string that already names a scheme and a host, or has no `nVersion=`, is left as it is. */
  lemma BackfillKeeps(s: string)
    requires !LacksSchemeOrHost(s) || IndexOf(s, "nVersion=").None?
    ensures Backfill(s) == s
  {
  }

  /**
   * The normalised URL is the base followed, when the query has parameters, by `?` and the
   * parameters in the fixed order; reading that query back gives exactly those parameters,
   * each key once.
   */
  lemma NormalizedQueryReadsBack(raw: string)
    ensures var p := ParseUrl(Backfill(Repair(raw)));
            var ps := Reorder(QueryParams(p));
            && NormalizeUrlQr(raw) == Base(p) + (if ps == [] then "" else "?" + BuildQuery(ps))
            && DistinctKeys(ps)
            && ParseStr(BuildQuery(ps)) == ps
  {
    var p := ParseUrl(Backfill(Repair(raw)));
    var query := OrElse(Parts(p).query, "");
    ParseStrDistinct(query);
    var params := QueryParams(p);
    var ps := Reorder(params);
    ReorderDistinct(params);
    ReorderPermutes(params);
    assert NonEmptyKeys(ps) by {
      forall i | 0 <= i < |ps| ensures ps[i].0 != "" {
        assert ps[i] in params;
      }
    }
    BuildQueryTruthy(ps);
    ParseStrBuildQuery(ps);
  }

  lemma RebuildOfEmpty(s: string)
    requires |s| == 0
    ensures Rebuild(s) == SetScheme + "://" + SetHost
  {
    var p := ParseUrl(s);
    assert p == Some(UrlParts(None, None, Some(""), None));
    assert QueryParams(p) == [];
    NothingToReorder(Priority);
    assert Reorder([]) == [];
    assert BuildQuery([]) == "";
  }

  /**
   * An input of white space only (as `<dCarQR> </dCarQR>` holds) becomes the bare SET host:
   * `parse_url("")` reports an empty path, which `??` keeps.
   */
  lemma BlankInputGivesSetHost(raw: string)
    requires forall i :: 0 <= i < |raw| ==> IsPhpTrimChar(raw[i])
    ensures NormalizeUrlQr(raw) == SetScheme + "://" + SetHost
  {
    BlankRepairsToEmpty(raw);
    BackfillOfEmpty(Repair(raw));
    RebuildOfEmpty(Repair(raw));
  }

  /** Steps 1 to 3 reduce white space to the empty string. */
  lemma BlankRepairsToEmpty(raw: string)
    requires forall i :: 0 <= i < |raw| ==> IsPhpTrimChar(raw[i])
    ensures Repair(raw) == ""
  {
    DecodeWithoutAmpersand(raw);
    ReplaceAllWithoutFirstChar(raw, "&amp;", "&");
    CollapseAmpSemicolonsIdentity(raw);
    RepairSemicolonSeparatorsIdentity(raw);
    CollapseAmpRunsIdentity(raw);
    DropAmpAfterQuestionIdentity(raw);
  }

  lemma BackfillOfEmpty(s: string)
    requires |s| == 0
    ensures Backfill(s) == s
  {
    assert IndexOf(s, "nVersion=").None?;
  }

  lemma {:induction false} NothingToReorder(keys: seq<string>)
    ensures PriorityPart([], keys) == []
    decreases |keys|
  {
    if keys != [] { NothingToReorder(keys[..|keys| - 1]); }
  }
}
