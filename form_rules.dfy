/**
 * Rules shared by the company and client forms: the e-mail pattern
 * `^[^\s@]+@[^\s@]+\.[^\s@]+$`, the error-map update done when a field is edited, and
 * the submit-time cleanup of optional text fields (`x?.trim() || undefined`).
 */
module FormRules {
  import opened Wrappers
  import opened Text

  const EmailInvalido := "Formato de email inválido"

  // ---------------------------------------------------------------------------
  // The e-mail pattern
  // ---------------------------------------------------------------------------

  /** A character of the class `[^\s@]`. */
  predicate Allowed(c: char) { !IsJsSpace(c) && c != '@' }

  predicate AllAllowed(s: string) { forall k :: 0 <= k < |s| ==> Allowed(s[k]) }

  /** `s` splits as `[^\s@]+` `@` `[^\s@]+` `.` `[^\s@]+` with the `@` at `i` and the `.` at `j`. */
  predicate EmailSplit(s: string, i: int, j: int) {
    && 1 <= i && i + 2 <= j && j + 2 <= |s|
    && s[i] == '@' && s[j] == '.'
    && AllAllowed(s[..i]) && AllAllowed(s[i + 1..j]) && AllAllowed(s[j + 1..])
  }

  /** The whole string matches the e-mail pattern (no `m` flag, so `$` is the end of input). */
  predicate EmailPattern(s: string) {
    exists i, j :: 0 <= i < |s| && 0 <= j < |s| && EmailSplit(s, i, j)
  }

  /** No white space anywhere, one `@` after at least one character, and a dot inside the domain. */
  predicate EmailShape(s: string, i: int) {
    && 1 <= i < |s| && s[i] == '@'
    && (forall k :: 0 <= k < |s| ==> !IsJsSpace(s[k]))
    && (forall k :: 0 <= k < |s| && s[k] == '@' ==> k == i)
    && (exists j :: i + 1 < j < |s| - 1 && s[j] == '.')
  }

  /** The pattern holds exactly when the address has that shape. */
  lemma EmailPatternMeaning(s: string)
    ensures EmailPattern(s) <==> exists i :: 0 <= i < |s| && EmailShape(s, i)
  {
    if EmailPattern(s) {
      var i, j :| 0 <= i < |s| && 0 <= j < |s| && EmailSplit(s, i, j);
      SplitHasShape(s, i, j);
    }
    if i :| 0 <= i < |s| && EmailShape(s, i) {
      var j :| i + 1 < j < |s| - 1 && s[j] == '.';
      ShapeHasSplit(s, i, j);
    }
  }

  lemma SplitHasShape(s: string, i: int, j: int)
    requires 0 <= i < |s| && 0 <= j < |s| && EmailSplit(s, i, j)
    ensures EmailShape(s, i)
  {
    forall k | 0 <= k < |s| && k != i && k != j ensures Allowed(s[k]) {
      if k < i {
        assert s[..i][k] == s[k];
      } else if k < j {
        assert s[i + 1..j][k - i - 1] == s[k];
      } else {
        assert s[j + 1..][k - j - 1] == s[k];
      }
    }
  }

  lemma ShapeHasSplit(s: string, i: int, j: int)
    requires EmailShape(s, i) && i + 1 < j < |s| - 1 && s[j] == '.'
    ensures EmailSplit(s, i, j)
  {
    assert forall k :: 0 <= k < |s| && k != i ==> Allowed(s[k]);
    assert AllAllowed(s[..i]);
    var domain, tld := s[i + 1..j], s[j + 1..];
    forall k | 0 <= k < |domain| ensures Allowed(domain[k]) {
      assert domain[k] == s[i + 1 + k];
    }
    forall k | 0 <= k < |tld| ensures Allowed(tld[k]) {
      assert tld[k] == s[j + 1 + k];
    }
  }

  // ---------------------------------------------------------------------------
  // Errors and cleanup
  // ---------------------------------------------------------------------------

  /** The message recorded under a key, if any (`errors[field]`). */
  function MessageOf<K>(errors: map<K, string>, k: K): Option<string> {
    if k in errors then Some(errors[k]) else None
  }

  /** A required field: its message exactly when it is blank. */
  function RequiredError(s: string, message: string): (r: Option<string>)
    ensures r.Some? <==> IsBlank(s)
    ensures r.Some? ==> r.value == message
  {
    if IsBlank(s) then Some(message) else None
  }

  /** An optional field with a format (`if (x && x.trim()) if (!valid) ...`): checked only when it holds more than white space. */
  function FormatError(s: string, valid: bool, message: string): (r: Option<string>)
    ensures r.Some? <==> !IsBlank(s) && !valid
    ensures r.Some? ==> r.value == message
  {
    if s != "" && !IsBlank(s) && !valid then Some(message) else None
  }

  /** A value matching a digits-only pattern is never blank. */
  lemma DigitsAreNotBlank(s: string)
    ensures |s| > 0 && AllDigits(s) ==> !IsBlank(s)
  {
    if |s| > 0 && AllDigits(s) {
      assert IsAsciiDigit(s[0]);
    }
  }

  /** `if (errors[field]) delete errors[field]`: a present, non-empty message is dropped. */
  function ErrorsAfterChange<K(!new)>(errors: map<K, string>, key: K): (r: map<K, string>)
    ensures key !in r || r[key] == ""
    ensures forall k :: k != key ==> (k in r <==> k in errors)
    ensures forall k :: k != key && k in r ==> r[k] == errors[k]
  {
    if key in errors && errors[key] != "" then errors - {key} else errors
  }

  /** `s?.trim() || undefined`. */
  function OptTrim(s: string): (r: Option<string>)
    ensures r.None? <==> IsBlank(s)
    ensures r.Some? ==> r.value == JsTrim(s) && !IsJsSpace(r.value[0]) && !IsJsSpace(r.value[|r.value| - 1])
  {
    BlankIffTrimEmpty(s);
    if JsTrim(s) == "" then None else Some(JsTrim(s))
  }

  /** An optional value that survives the cleanup unchanged: absent, or non-empty without surrounding space. */
  predicate Clean(x: Option<string>) {
    x.Some? ==> x.value != "" && !IsJsSpace(x.value[0]) && !IsJsSpace(x.value[|x.value| - 1])
  }

  /** Loading a clean optional value with `|| ""` and cleaning it again gives it back. */
  lemma LoadThenTrim(x: Option<string>)
    requires Clean(x)
    ensures OptTrim(OrText(x, "")) == x
  {
    if x.Some? {
      TrimKeepsTrimmed(x.value);
    } else {
      assert JsTrim("") == "";
    }
  }

  /** With a clean non-empty default `d` (`x || d`), an absent value comes back as `d`. */
  lemma LoadDefaultThenTrim(x: Option<string>, d: string)
    requires Clean(x) && Clean(Some(d))
    ensures OptTrim(OrText(x, d)) == if x.None? then Some(d) else x
  {
    if x.Some? {
      TrimKeepsTrimmed(x.value);
    } else {
      TrimKeepsTrimmed(d);
    }
  }
}
