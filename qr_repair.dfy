/**
 * Steps 1 to 3 of `normalizarUrlQr` (public/generarPdfDesdeXML.php): entity decoding,
 * separator repair and clean-up of a QR URL taken from a SIFEN document. Each regular
 * expression replacement of the source is one function here; the lemmas state which
 * malformed separators are gone after each step and that later steps do not bring
 * them back.
 */
module QrRepair {
  import opened Text

  // ---------------------------------------------------------------------------
  // Step 1: html_entity_decode($raw, ENT_QUOTES | ENT_XML1)
  // ---------------------------------------------------------------------------

  /** One left-to-right pass replacing the five predefined XML entities by their characters. */
  function DecodeEntities(s: string): (r: string)
    decreases |s|
  {
    if s == [] then []
    else if s[0] != '&' then [s[0]] + DecodeEntities(s[1..])
    else if IsPrefix("&amp;", s) then "&" + DecodeEntities(s[5..])
    else if IsPrefix("&lt;", s) then "<" + DecodeEntities(s[4..])
    else if IsPrefix("&gt;", s) then ">" + DecodeEntities(s[4..])
    else if IsPrefix("&quot;", s) then "\"" + DecodeEntities(s[6..])
    else if IsPrefix("&apos;", s) then "'" + DecodeEntities(s[6..])
    else "&" + DecodeEntities(s[1..])
  }

  /** Text without an ampersand is left as it is by the entity decoder. */
  lemma {:induction false} DecodeWithoutAmpersand(s: string)
    requires forall i :: 0 <= i < |s| ==> s[i] != '&'
    ensures DecodeEntities(s) == s
  {
    if s != [] {
      DecodeWithoutAmpersand(s[1..]);
    }
  }

  // ---------------------------------------------------------------------------
  // Literal replacement: str_replace, and preg_replace with a fixed pattern
  // ---------------------------------------------------------------------------

  /** Leftmost, non-overlapping replacement of every occurrence of `pat` by `rep`. */
  function ReplaceAll(s: string, pat: string, rep: string): string
    requires |pat| > 0
    decreases |s|
  {
    if s == [] then []
    else if IsPrefix(pat, s) then rep + ReplaceAll(s[|pat|..], pat, rep)
    else [s[0]] + ReplaceAll(s[1..], pat, rep)
  }

  // ---------------------------------------------------------------------------
  // Step 2: separator repair
  // ---------------------------------------------------------------------------

  predicate IsSemicolon(c: char) { c == ';' }
  predicate IsAmpersand(c: char) { c == '&' }

  /** preg_replace('/&;+/u', '&', $s): an ampersand followed by a run of semicolons becomes one ampersand. */
  function CollapseAmpSemicolons(s: string): string
    decreases |s|
  {
    if s == [] then []
    else if |s| >= 2 && s[0] == '&' && s[1] == ';' then "&" + CollapseAmpSemicolons(StripLeft(s[1..], IsSemicolon))
    else [s[0]] + CollapseAmpSemicolons(s[1..])
  }

  predicate IsNameStart(c: char) { IsAsciiLetter(c) || c == '_' }
  predicate IsNameChar(c: char) { IsNameStart(c) || IsAsciiDigit(c) }

  /** `t` starts with zero or more of [A-Za-z0-9_] and then `=`. */
  predicate NameCharsThenEquals(t: string)
    decreases |t|
  {
    |t| > 0 && (t[0] == '=' || (IsNameChar(t[0]) && NameCharsThenEquals(t[1..])))
  }

  /** `t` starts with a parameter name and `=`: the look-ahead `(?=[A-Za-z_][A-Za-z0-9_]*=)`. */
  predicate StartsWithParam(t: string) {
    |t| > 0 && IsNameStart(t[0]) && NameCharsThenEquals(t[1..])
  }

  /** preg_replace('/;(?=[A-Za-z_][A-Za-z0-9_]*=)/u', '&', $s): a semicolon that introduces a parameter becomes `&`. */
  function RepairSemicolonSeparators(s: string): (r: string)
    decreases |s|
    ensures |r| == |s|
  {
    if s == [] then []
    else [if s[0] == ';' && StartsWithParam(s[1..]) then '&' else s[0]] + RepairSemicolonSeparators(s[1..])
  }

  // ---------------------------------------------------------------------------
  // Step 3: duplicate and boundary clean-up
  // ---------------------------------------------------------------------------

  /** preg_replace('/[&]{2,}/u', '&', $s): every run of ampersands becomes one ampersand. */
  function CollapseAmpRuns(s: string): string
    decreases |s|
  {
    if s == [] then []
    else if s[0] == '&' then "&" + CollapseAmpRuns(StripLeft(s[1..], IsAmpersand))
    else [s[0]] + CollapseAmpRuns(s[1..])
  }

  /** Steps 1 to 3 of the normaliser, in the source's order. */
  function Repair(raw: string): string {
    var s1 := DecodeEntities(raw);
    var s2 := ReplaceAll(s1, "&amp;", "&");
    var s3 := CollapseAmpSemicolons(s2);
    var s4 := RepairSemicolonSeparators(s3);
    var s5 := CollapseAmpRuns(s4);
    var s6 := ReplaceAll(s5, "?&", "?");
    PhpTrim(s6)
  }

  // ---------------------------------------------------------------------------
  // What the clean string no longer contains
  // ---------------------------------------------------------------------------

  /** No character `a` is directly followed by a character `b`. */
  predicate NoPair(s: string, a: char, b: char) {
    forall i :: 0 <= i < |s| - 1 ==> !(s[i] == a && s[i + 1] == b)
  }

  /** No semicolon is directly followed by a parameter name and `=`. */
  predicate NoSemicolonParam(s: string) {
    forall i :: 0 <= i < |s| ==> SemicolonNotBeforeParam(s, i)
  }

  /** The semicolon condition at one position. */
  predicate SemicolonNotBeforeParam(s: string, i: nat)
    requires i < |s|
  {
    s[i] == ';' ==> !StartsWithParam(s[i + 1..])
  }

  /** The guarantees of steps 2 and 3, together. */
  predicate Repaired(s: string) {
    && NoPair(s, '&', ';')
    && NoSemicolonParam(s)
    && NoPair(s, '&', '&')
    && NoPair(s, '?', '&')
    && (|s| > 0 ==> !IsPhpTrimChar(s[0]) && !IsPhpTrimChar(s[|s| - 1]))
  }

  lemma NoPairCons(c: char, t: string, a: char, b: char)
    ensures NoPair([c] + t, a, b) <==> (t == [] || !(c == a && t[0] == b)) && NoPair(t, a, b)
  {
    var s := [c] + t;
    if (t == [] || !(c == a && t[0] == b)) && NoPair(t, a, b) {
      forall i | 0 <= i < |s| - 1 ensures !(s[i] == a && s[i + 1] == b) {
        if i > 0 { assert s[i] == t[i - 1] && s[i + 1] == t[i]; }
      }
    }
    if NoPair(s, a, b) {
      if t != [] { assert s[0] == c && s[1] == t[0]; }
      forall i | 0 <= i < |t| - 1 ensures !(t[i] == a && t[i + 1] == b) {
        assert s[i + 1] == t[i] && s[i + 2] == t[i + 1];
      }
    }
  }

  lemma NoPairConcat(u: string, t: string, a: char, b: char)
    requires NoPair(u, a, b) && NoPair(t, a, b)
    requires u == [] || t == [] || !(u[|u| - 1] == a && t[0] == b)
    ensures NoPair(u + t, a, b)
  {
    var s := u + t;
    forall i | 0 <= i < |s| - 1 ensures !(s[i] == a && s[i + 1] == b) {
      if i + 1 < |u| {
        assert s[i] == u[i] && s[i + 1] == u[i + 1];
      } else if i >= |u| {
        assert s[i] == t[i - |u|] && s[i + 1] == t[i + 1 - |u|];
      }
    }
  }

  lemma NoPairSuffix(s: string, k: nat, a: char, b: char)
    requires k <= |s| && NoPair(s, a, b)
    ensures NoPair(s[k..], a, b)
  {
    var t := s[k..];
    forall i | 0 <= i < |t| - 1 ensures !(t[i] == a && t[i + 1] == b) {
      assert t[i] == s[k + i] && t[i + 1] == s[k + i + 1];
    }
  }

  lemma NoSemicolonParamCons(c: char, t: string)
    ensures NoSemicolonParam([c] + t) <==> (c == ';' ==> !StartsWithParam(t)) && NoSemicolonParam(t)
  {
    var s := [c] + t;
    assert s[0] == c && s[1..] == t;
    if (c == ';' ==> !StartsWithParam(t)) && NoSemicolonParam(t) {
      forall i | 0 <= i < |s| ensures SemicolonNotBeforeParam(s, i) {
        if i > 0 {
          assert SemicolonNotBeforeParam(t, i - 1);
          assert s[i] == t[i - 1] && s[i + 1..] == t[i..];
        }
      }
    }
    if NoSemicolonParam(s) {
      assert SemicolonNotBeforeParam(s, 0);
      forall i | 0 <= i < |t| ensures SemicolonNotBeforeParam(t, i) {
        assert SemicolonNotBeforeParam(s, i + 1);
        assert s[i + 1] == t[i] && s[i + 2..] == t[i + 1..];
      }
    }
  }

  lemma NoSemicolonParamSuffix(s: string, k: nat)
    requires k <= |s| && NoSemicolonParam(s)
    ensures NoSemicolonParam(s[k..])
  {
    var t := s[k..];
    forall i | 0 <= i < |t| ensures SemicolonNotBeforeParam(t, i) {
      assert SemicolonNotBeforeParam(s, k + i);
      assert t[i] == s[k + i] && t[i + 1..] == s[k + i + 1..];
    }
  }

  // ----- CollapseAmpSemicolons -----

  lemma CollapseAmpSemicolonsHead(s: string)
    requires s != []
    ensures CollapseAmpSemicolons(s) != [] && CollapseAmpSemicolons(s)[0] == s[0]
  {
  }

  /** After `&;+` is replaced, no ampersand is followed by a semicolon. */
  lemma {:induction false} CollapseAmpSemicolonsClears(s: string)
    ensures NoPair(CollapseAmpSemicolons(s), '&', ';')
    decreases |s|
  {
    if s == [] {
    } else if |s| >= 2 && s[0] == '&' && s[1] == ';' {
      var t := StripLeft(s[1..], IsSemicolon);
      CollapseAmpSemicolonsClears(t);
      if t != [] { CollapseAmpSemicolonsHead(t); }
      NoPairCons('&', CollapseAmpSemicolons(t), '&', ';');
    } else {
      CollapseAmpSemicolonsClears(s[1..]);
      if |s| >= 2 { CollapseAmpSemicolonsHead(s[1..]); }
      NoPairCons(s[0], CollapseAmpSemicolons(s[1..]), '&', ';');
    }
  }

  // ----- RepairSemicolonSeparators -----

  lemma {:induction false} RepairSemicolonSeparatorsAt(s: string, i: nat)
    requires i < |s|
    ensures |RepairSemicolonSeparators(s)| == |s|
    ensures RepairSemicolonSeparators(s)[i] == if s[i] == ';' && StartsWithParam(s[i + 1..]) then '&' else s[i]
    ensures RepairSemicolonSeparators(s)[i + 1..] == RepairSemicolonSeparators(s[i + 1..])
    decreases i
  {
    if i > 0 {
      RepairSemicolonSeparatorsAt(s[1..], i - 1);
      assert s[1..][i - 1] == s[i] && s[1..][i..] == s[i + 1..];
    }
  }

  lemma {:induction false} NameCharsThenEqualsAfterRepair(t: string)
    ensures NameCharsThenEquals(RepairSemicolonSeparators(t)) <==> NameCharsThenEquals(t)
    decreases |t|
  {
    if t != [] {
      RepairSemicolonSeparatorsAt(t, 0);
      NameCharsThenEqualsAfterRepair(t[1..]);
    }
  }

  /** The look-ahead of the semicolon repair sees the same verdict before and after the repair. */
  lemma StartsWithParamAfterRepair(t: string)
    ensures StartsWithParam(RepairSemicolonSeparators(t)) <==> StartsWithParam(t)
  {
    if t != [] {
      RepairSemicolonSeparatorsAt(t, 0);
      NameCharsThenEqualsAfterRepair(t[1..]);
    }
  }

  /** After the semicolon repair no semicolon introduces a parameter, and no `&;` pair appears. */
  lemma RepairSemicolonSeparatorsClears(s: string)
    requires NoPair(s, '&', ';')
    ensures NoSemicolonParam(RepairSemicolonSeparators(s))
    ensures NoPair(RepairSemicolonSeparators(s), '&', ';')
  {
    var r := RepairSemicolonSeparators(s);
    if s != [] { RepairSemicolonSeparatorsAt(s, 0); }
    forall i | 0 <= i < |r| ensures SemicolonNotBeforeParam(r, i) {
      RepairSemicolonSeparatorsAt(s, i);
      StartsWithParamAfterRepair(s[i + 1..]);
    }
    forall i | 0 <= i < |r| - 1 ensures !(r[i] == '&' && r[i + 1] == ';') {
      RepairSemicolonSeparatorsAt(s, i);
      RepairSemicolonSeparatorsAt(s, i + 1);
    }
  }

  // ----- CollapseAmpRuns -----

  lemma CollapseAmpRunsHead(s: string)
    requires s != []
    ensures CollapseAmpRuns(s) != [] && CollapseAmpRuns(s)[0] == s[0]
  {
  }

  lemma {:induction false} NameCharsThenEqualsAfterCollapse(t: string)
    ensures NameCharsThenEquals(CollapseAmpRuns(t)) <==> NameCharsThenEquals(t)
    decreases |t|
  {
    if t != [] && t[0] != '&' {
      assert CollapseAmpRuns(t)[1..] == CollapseAmpRuns(t[1..]);
      NameCharsThenEqualsAfterCollapse(t[1..]);
    }
  }

  lemma StartsWithParamAfterCollapse(t: string)
    ensures StartsWithParam(CollapseAmpRuns(t)) <==> StartsWithParam(t)
  {
    if t != [] && t[0] != '&' {
      assert CollapseAmpRuns(t)[1..] == CollapseAmpRuns(t[1..]);
      NameCharsThenEqualsAfterCollapse(t[1..]);
    }
  }

  /** After runs of `&` are collapsed no `&&` remains. */
  lemma {:induction false} CollapseAmpRunsClears(s: string)
    ensures NoPair(CollapseAmpRuns(s), '&', '&')
    decreases |s|
  {
    if s == [] {
    } else if s[0] == '&' {
      var t := StripLeft(s[1..], IsAmpersand);
      CollapseAmpRunsClears(t);
      if t != [] { CollapseAmpRunsHead(t); }
      NoPairCons('&', CollapseAmpRuns(t), '&', '&');
    } else {
      CollapseAmpRunsClears(s[1..]);
      NoPairCons(s[0], CollapseAmpRuns(s[1..]), '&', '&');
    }
  }

  /** Collapsing runs of `&` brings back no `&;` pair. */
  lemma {:induction false} CollapseAmpRunsKeepsNoAmpSemicolon(s: string)
    requires NoPair(s, '&', ';')
    ensures NoPair(CollapseAmpRuns(s), '&', ';')
    decreases |s|
  {
    if s == [] {
    } else if s[0] == '&' {
      var t := StripLeft(s[1..], IsAmpersand);
      var n := |s| - |t|;
      assert s[n..] == t;
      NoPairSuffix(s, n, '&', ';');
      CollapseAmpRunsKeepsNoAmpSemicolon(t);
      if t != [] {
        CollapseAmpRunsHead(t);
        assert s[n - 1] == '&' by {
          if n > 1 { assert s[1..][n - 2] == s[n - 1]; }
        }
        assert s[n] == t[0];
      }
      NoPairCons('&', CollapseAmpRuns(t), '&', ';');
    } else {
      NoPairSuffix(s, 1, '&', ';');
      CollapseAmpRunsKeepsNoAmpSemicolon(s[1..]);
      if |s| >= 2 { CollapseAmpRunsHead(s[1..]); }
      NoPairCons(s[0], CollapseAmpRuns(s[1..]), '&', ';');
    }
  }

  /** The step of the next lemma for a first character other than `&`. */
  lemma {:induction false} KeepsNoSemicolonParamStep(s: string)
    requires s != [] && s[0] != '&' && NoSemicolonParam(s)
    requires NoSemicolonParam(CollapseAmpRuns(s[1..]))
    ensures NoSemicolonParam(CollapseAmpRuns(s))
  {
    var c, u := s[0], s[1..];
    assert s == [c] + u;
    NoSemicolonParamCons(c, u);
    StartsWithParamAfterCollapse(u);
    assert CollapseAmpRuns(s) == [c] + CollapseAmpRuns(u);
    NoSemicolonParamCons(c, CollapseAmpRuns(u));
  }

  /** The step of the next lemma for a first character `&`. */
  lemma KeepsNoSemicolonParamAmpStep(s: string)
    requires s != [] && s[0] == '&'
    requires NoSemicolonParam(CollapseAmpRuns(StripLeft(s[1..], IsAmpersand)))
    ensures NoSemicolonParam(CollapseAmpRuns(s))
  {
    var u := CollapseAmpRuns(StripLeft(s[1..], IsAmpersand));
    assert CollapseAmpRuns(s) == ['&'] + u;
    NoSemicolonParamCons('&', u);
  }

  /** Collapsing runs of `&` brings back no semicolon before a parameter. */
  lemma {:induction false} CollapseAmpRunsKeepsNoSemicolonParam(s: string)
    requires NoSemicolonParam(s)
    ensures NoSemicolonParam(CollapseAmpRuns(s))
    decreases |s|
  {
    if s == [] {
    } else if s[0] == '&' {
      var u := s[1..];
      var t := StripLeft(u, IsAmpersand);
      NoSemicolonParamSuffix(s, 1);
      NoSemicolonParamSuffix(u, |u| - |t|);
      CollapseAmpRunsKeepsNoSemicolonParam(t);
      KeepsNoSemicolonParamAmpStep(s);
    } else {
      NoSemicolonParamSuffix(s, 1);
      CollapseAmpRunsKeepsNoSemicolonParam(s[1..]);
      KeepsNoSemicolonParamStep(s);
    }
  }

  // ----- ReplaceAll(_, "?&", "?") -----

  lemma DropAmpAfterQuestionHead(s: string)
    requires s != []
    ensures ReplaceAll(s, "?&", "?") != [] && ReplaceAll(s, "?&", "?")[0] == s[0]
  {
  }

  lemma {:induction false} NameCharsThenEqualsAfterDrop(t: string)
    ensures NameCharsThenEquals(ReplaceAll(t, "?&", "?")) <==> NameCharsThenEquals(t)
    decreases |t|
  {
    if t != [] && !IsPrefix("?&", t) {
      assert ReplaceAll(t, "?&", "?")[1..] == ReplaceAll(t[1..], "?&", "?");
      NameCharsThenEqualsAfterDrop(t[1..]);
    }
  }

  lemma StartsWithParamAfterDrop(t: string)
    ensures StartsWithParam(ReplaceAll(t, "?&", "?")) <==> StartsWithParam(t)
  {
    if t != [] && !IsPrefix("?&", t) {
      assert ReplaceAll(t, "?&", "?")[1..] == ReplaceAll(t[1..], "?&", "?");
      NameCharsThenEqualsAfterDrop(t[1..]);
    }
  }

  /** After `?&` becomes `?` no `?&` remains, and the earlier guarantees still hold. */
  lemma {:induction false} DropAmpAfterQuestionClears(s: string)
    requires NoPair(s, '&', ';') && NoSemicolonParam(s) && NoPair(s, '&', '&')
    ensures NoPair(ReplaceAll(s, "?&", "?"), '?', '&')
    ensures NoPair(ReplaceAll(s, "?&", "?"), '&', '&')
    ensures NoPair(ReplaceAll(s, "?&", "?"), '&', ';')
    ensures NoSemicolonParam(ReplaceAll(s, "?&", "?"))
    decreases |s|
  {
    if s == [] {
    } else if IsPrefix("?&", s) {
      var t := s[2..];
      NoPairSuffix(s, 2, '&', ';');
      NoPairSuffix(s, 2, '&', '&');
      NoSemicolonParamSuffix(s, 2);
      DropAmpAfterQuestionClears(t);
      var rt := ReplaceAll(t, "?&", "?");
      if t != [] {
        DropAmpAfterQuestionHead(t);
        assert s[1] == '&' && s[2] == t[0];
      }
      NoPairCons('?', rt, '?', '&');
      NoPairCons('?', rt, '&', '&');
      NoPairCons('?', rt, '&', ';');
      NoSemicolonParamCons('?', rt);
    } else {
      var t := s[1..];
      NoPairSuffix(s, 1, '&', ';');
      NoPairSuffix(s, 1, '&', '&');
      NoSemicolonParamSuffix(s, 1);
      DropAmpAfterQuestionClears(t);
      var rt := ReplaceAll(t, "?&", "?");
      if t != [] {
        DropAmpAfterQuestionHead(t);
        assert s[1] == t[0];
      }
      NoPairCons(s[0], rt, '?', '&');
      NoPairCons(s[0], rt, '&', '&');
      NoPairCons(s[0], rt, '&', ';');
      NoSemicolonParamCons(s[0], rt);
      NoSemicolonParamCons(s[0], t);
      assert [s[0]] + t == s;
      StartsWithParamAfterDrop(t);
    }
  }

  // ----- PhpTrim -----

  lemma {:induction false} NameCharsThenEqualsExtends(u: string, v: string)
    requires IsPrefix(u, v)
    ensures NameCharsThenEquals(u) ==> NameCharsThenEquals(v)
    decreases |u|
  {
    if |u| > 0 {
      assert u[0] == v[0];
      assert u[1..] == v[1..][..|u| - 1];
      NameCharsThenEqualsExtends(u[1..], v[1..]);
    }
  }

  lemma SliceKeepsNoPair(s: string, i: nat, j: nat, a: char, b: char)
    requires i <= j <= |s| && NoPair(s, a, b)
    ensures NoPair(s[i..j], a, b)
  {
    var r := s[i..j];
    forall k | 0 <= k < |r| - 1 ensures !(r[k] == a && r[k + 1] == b) {
      assert r[k] == s[i + k] && r[k + 1] == s[i + k + 1];
    }
  }

  lemma SliceKeepsNoSemicolonParam(s: string, i: nat, j: nat)
    requires i <= j <= |s| && NoSemicolonParam(s)
    ensures NoSemicolonParam(s[i..j])
  {
    var r := s[i..j];
    forall k | 0 <= k < |r| ensures SemicolonNotBeforeParam(r, k) {
      assert SemicolonNotBeforeParam(s, i + k);
      assert r[k] == s[i + k];
      if k + 1 < |r| {
        assert r[k + 1] == s[i + k + 1];
        assert r[k + 2..] == s[i + k + 2..][..|r| - k - 2];
        NameCharsThenEqualsExtends(r[k + 2..], s[i + k + 2..]);
        assert r[k + 2..] == r[k + 1..][1..] && s[i + k + 2..] == s[i + k + 1..][1..];
      }
    }
  }

  /** Trimming only cuts the ends, so none of the cleared pairs can reappear. */
  lemma TrimKeepsRepaired(s: string)
    requires NoPair(s, '&', ';') && NoSemicolonParam(s) && NoPair(s, '&', '&') && NoPair(s, '?', '&')
    ensures Repaired(PhpTrim(s))
  {
    var r := PhpTrim(s);
    var i, j :| 0 <= i <= j <= |s| && r == s[i..j];
    SliceKeepsNoPair(s, i, j, '&', ';');
    SliceKeepsNoPair(s, i, j, '&', '&');
    SliceKeepsNoPair(s, i, j, '?', '&');
    SliceKeepsNoSemicolonParam(s, i, j);
  }

  /**
   * After steps 1 to 3 the string has no `&;` pair, no semicolon directly before a
   * parameter name and `=`, no `&&`, no `?&`, and no surrounding white space.
   */
  lemma RepairGuarantees(raw: string)
    ensures Repaired(Repair(raw))
  {
    var s1 := DecodeEntities(raw);
    var s2 := ReplaceAll(s1, "&amp;", "&");
    var s3 := CollapseAmpSemicolons(s2);
    CollapseAmpSemicolonsClears(s2);
    var s4 := RepairSemicolonSeparators(s3);
    RepairSemicolonSeparatorsClears(s3);
    var s5 := CollapseAmpRuns(s4);
    CollapseAmpRunsClears(s4);
    CollapseAmpRunsKeepsNoAmpSemicolon(s4);
    CollapseAmpRunsKeepsNoSemicolonParam(s4);
    var s6 := ReplaceAll(s5, "?&", "?");
    DropAmpAfterQuestionClears(s5);
    TrimKeepsRepaired(s6);
  }

  // ----- Each step leaves text without its pattern unchanged -----

  lemma {:induction false} ReplaceAllWithoutFirstChar(s: string, pat: string, rep: string)
    requires |pat| > 0 && forall i :: 0 <= i < |s| ==> s[i] != pat[0]
    ensures ReplaceAll(s, pat, rep) == s
    decreases |s|
  {
    if s != [] {
      NotPrefixAt(pat, s, 0);
      ReplaceAllWithoutFirstChar(s[1..], pat, rep);
    }
  }

  /** Without an `&;` pair the `&;+` replacement changes nothing. */
  lemma {:induction false} CollapseAmpSemicolonsIdentity(s: string)
    requires NoPair(s, '&', ';')
    ensures CollapseAmpSemicolons(s) == s
    decreases |s|
  {
    if s != [] {
      NoPairSuffix(s, 1, '&', ';');
      CollapseAmpSemicolonsIdentity(s[1..]);
    }
  }

  /** Without a semicolon before a parameter the semicolon repair changes nothing. */
  lemma {:induction false} RepairSemicolonSeparatorsIdentity(s: string)
    requires NoSemicolonParam(s)
    ensures RepairSemicolonSeparators(s) == s
    decreases |s|
  {
    if s != [] {
      assert SemicolonNotBeforeParam(s, 0);
      NoSemicolonParamSuffix(s, 1);
      RepairSemicolonSeparatorsIdentity(s[1..]);
    }
  }

  /** Without `&&` collapsing runs changes nothing. */
  lemma {:induction false} CollapseAmpRunsIdentity(s: string)
    requires NoPair(s, '&', '&')
    ensures CollapseAmpRuns(s) == s
    decreases |s|
  {
    if s != [] {
      NoPairSuffix(s, 1, '&', '&');
      CollapseAmpRunsIdentity(s[1..]);
      if s[0] == '&' && |s| > 1 {
        assert s[1] != '&';
      }
    }
  }

  /** Without `?&` the `?&` replacement changes nothing. */
  lemma {:induction false} DropAmpAfterQuestionIdentity(s: string)
    requires NoPair(s, '?', '&')
    ensures ReplaceAll(s, "?&", "?") == s
    decreases |s|
  {
    if s != [] {
      NoPairSuffix(s, 1, '?', '&');
      DropAmpAfterQuestionIdentity(s[1..]);
      if s[0] != '?' { NotPrefixAt("?&", s, 0); } else if |s| > 1 { NotPrefixAt("?&", s, 1); }
    }
  }

  lemma DecodeExample()
    ensures DecodeEntities("&;amp;") == "&;amp;"
  {
    var raw := "&;amp;";
    NotPrefixAt("&amp;", raw, 1);
    NotPrefixAt("&lt;", raw, 1);
    NotPrefixAt("&gt;", raw, 1);
    NotPrefixAt("&quot;", raw, 1);
    NotPrefixAt("&apos;", raw, 1);
    DecodeWithoutAmpersand(raw[1..]);
  }

  lemma ReplaceExample()
    ensures ReplaceAll("&;amp;", "&amp;", "&") == "&;amp;"
  {
    var raw := "&;amp;";
    NotPrefixAt("&amp;", raw, 1);
    ReplaceAllWithoutFirstChar(raw[1..], "&amp;", "&");
  }

  lemma CollapseExample(raw: string, tail: string)
    requires raw == "&;amp;" && tail == "amp;"
    ensures CollapseAmpSemicolons(raw) == "&" + tail
  {
    assert raw[0] == '&' && raw[1] == ';' && raw[2..] == tail && tail[0] != ';';
    assert NoPair(tail, '&', ';');
    AmpSemicolonThen(raw, tail);
  }

  /** `&;` followed by a text that starts with no semicolon and holds no `&;` becomes `&` and that text. */
  lemma AmpSemicolonThen(raw: string, tail: string)
    requires |raw| >= 2 && raw[0] == '&' && raw[1] == ';' && raw[2..] == tail
    requires (tail == [] || tail[0] != ';') && NoPair(tail, '&', ';')
    ensures CollapseAmpSemicolons(raw) == "&" + tail
  {
    var u := raw[1..];
    assert u[0] == ';' && u[1..] == tail;
    assert StripLeft(tail, IsSemicolon) == tail;
    assert StripLeft(u, IsSemicolon) == tail;
    CollapseAmpSemicolonsIdentity(tail);
  }

  lemma CleanupExample(s3: string)
    requires s3 == "&amp;"
    ensures PhpTrim(ReplaceAll(CollapseAmpRuns(RepairSemicolonSeparators(s3)), "?&", "?")) == s3
  {
    SemicolonStepExample(s3);
    AmpRunsExample(s3);
    QuestionAmpExample(s3);
    TrimExample(s3);
  }

  lemma QuestionAmpExample(s3: string)
    requires s3 == "&amp;"
    ensures ReplaceAll(s3, "?&", "?") == s3
  {
    ReplaceAllWithoutFirstChar(s3, "?&", "?");
  }

  lemma TrimExample(s3: string)
    requires s3 == "&amp;"
    ensures PhpTrim(s3) == s3
  {
    TrimWithoutEnds(s3);
  }

  lemma SemicolonStepExample(s3: string)
    requires s3 == "&amp;"
    ensures RepairSemicolonSeparators(s3) == s3
  {
    assert NoSemicolonParam(s3) by {
      forall i | 0 <= i < |s3| ensures SemicolonNotBeforeParam(s3, i) {
        if s3[i] == ';' { assert i == 4 && s3[i + 1..] == []; }
      }
    }
    RepairSemicolonSeparatorsIdentity(s3);
  }

  lemma AmpRunsExample(s3: string)
    requires s3 == "&amp;"
    ensures CollapseAmpRuns(s3) == s3
  {
    assert NoPair(s3, '&', '&');
    CollapseAmpRunsIdentity(s3);
  }

  lemma TrimWithoutEnds(s: string)
    requires |s| > 0 && !IsPhpTrimChar(s[0]) && !IsPhpTrimChar(s[|s| - 1])
    ensures PhpTrim(s) == s
  {
    assert StripLeft(s, IsPhpTrimChar) == s;
  }

  /**
   * The literal text `&amp;` can survive the repair: the `&;+` step turns `&;amp;` into
   * `&amp;`, after the `&amp;` replacement has already run.
   */
  lemma AmpEntityCanSurviveRepair()
    ensures Repair("&;amp;") == "&amp;"
  {
    DecodeExample();
    ReplaceExample();
    CollapseExample("&;amp;", "amp;");
    CleanupExample("&amp;");
  }
}
