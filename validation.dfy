/**
 * Form validation (src/validation.py): the `FieldValidator` checks, each a
 * chain of early returns, and `FormValidator.validate_form_data`, which
 * collects every error into a list instead of stopping at the first one.
 *
 * A form field that is missing is modelled as the empty string: every check
 * treats a missing field and an empty one alike.
 */
module Validation {
  import opened Text

  /** `ValidationResult`: valid, or invalid with the field and its message. */
  datatype Check = Valid | Invalid(field: string, message: string)

  /** One entry of the error list: `{'field': ..., 'message': ...}`. */
  datatype FieldError = FieldError(field: string, message: string)

  /** The submitted form: five text fields, the free-text role, and the two repeated fields. */
  datatype Form = Form(
    nome: string, funcao: string, departamento: string, telefone: string, empresa: string,
    outrosFuncao: string, patrimonios: seq<string>, observacoes: seq<string>)

  const NameTooShort: string := "Nome deve ter pelo menos 2 caracteres"
  const NameTooLong: string := "Nome deve ter no máximo 100 caracteres"
  const NameBadChars: string := "Nome deve conter apenas letras e espaços"
  const PhoneTooShort: string := "Telefone deve ter pelo menos 10 dígitos"
  const PhoneTooLong: string := "Telefone deve ter no máximo 11 dígitos"
  const RoleTooShort: string := "Função deve ter pelo menos 3 caracteres"
  const RoleTooLong: string := "Função deve ter no máximo 100 caracteres"
  const AssetNeedsLetters: string := "Patrimônio deve ter pelo menos 2 letras seguidas de números"
  const AssetBadFormat: string := "Formato inválido. Use um destes formatos: CEL001, PC123, FON456, MO789, NOT101, IMP202, FRAG303, CAD404"
  const ObservationTooLong: string := "Observação deve ter no máximo 500 caracteres"
  const NoAssetMessage: string := "Pelo menos um patrimônio é obrigatório"
  const RequiredSuffix: string := " é obrigatório"

  /** Whether the character before position `i` is a letter (`afterCased` stands for the one before `s`). */
  predicate CasedBefore(s: string, afterCased: bool, i: nat)
    requires i < |s|
  {
    if i == 0 then afterCased else IsUpperAscii(s[i - 1]) || IsLowerAscii(s[i - 1])
  }

  /** Python's `str.title()` over ASCII letters; `afterCased` says whether a letter precedes. */
  function TitleFrom(s: string, afterCased: bool): (r: string)
    ensures |r| == |s|
  {
    if s == [] then []
    else
      var c := s[0];
      [if afterCased then LowerChar(c) else UpperChar(c)] + TitleFrom(s[1..], IsUpperAscii(c) || IsLowerAscii(c))
  }

  /**
   * `str.title()` lowers a character that follows a letter and raises every
   * other one, so each word starts with a capital and continues in lower case.
   */
  lemma {:induction false} TitleFromSpec(s: string, afterCased: bool)
    ensures forall i :: 0 <= i < |s| ==>
      TitleFrom(s, afterCased)[i] == if CasedBefore(s, afterCased, i) then LowerChar(s[i]) else UpperChar(s[i])
  {
    if s != [] {
      var c := s[0];
      var cased := IsUpperAscii(c) || IsLowerAscii(c);
      TitleFromSpec(s[1..], cased);
      forall i | 1 <= i < |s|
        ensures TitleFrom(s, afterCased)[i] == if CasedBefore(s, afterCased, i) then LowerChar(s[i]) else UpperChar(s[i])
      {
        assert TitleFrom(s, afterCased)[i] == TitleFrom(s[1..], cased)[i - 1];
        assert CasedBefore(s, afterCased, i) == CasedBefore(s[1..], cased, i - 1);
      }
    }
  }

  /** `table.get(field, fallback)` over a table of (field, display name) pairs. */
  function DisplayName(table: seq<(string, string)>, field: string, fallback: string): string
  {
    if table == [] then fallback
    else if table[0].0 == field then table[0].1
    else DisplayName(table[1..], field, fallback)
  }

  /** The display names `validate_required` knows. */
  const RequiredNames: seq<(string, string)> := [
    ("nome", "Nome"), ("funcao", "Função"), ("departamento", "Departamento"),
    ("telefone", "Telefone"), ("empresa", "Empresa"), ("patrimonio", "Patrimônio"),
    ("outrosFuncao", "Função específica")]

  /** The display names `validate_select_field` knows. */
  const SelectNames: seq<(string, string)> := [
    ("departamento", "Departamento"), ("empresa", "Empresa"), ("funcao", "Função")]

  /** The display name `validate_required` uses in its message. */
  function RequiredDisplayName(field: string): string
  {
    DisplayName(RequiredNames, field, TitleFrom(field, false))
  }

  /** The display name `validate_select_field` uses in its message. */
  function SelectDisplayName(field: string): string
  {
    DisplayName(SelectNames, field, TitleFrom(field, false))
  }

  /** `validate_required`: fails exactly on an empty or whitespace-only value. */
  function ValidateRequired(value: string, field: string): (r: Check)
    ensures r.Invalid? <==> IsBlank(value)
    ensures r.Invalid? ==> r == Invalid(field, RequiredDisplayName(field) + RequiredSuffix)
  {
    StripEmptyIffBlank(value);
    if value == [] || Strip(value) == [] then
      Invalid(field, RequiredDisplayName(field) + RequiredSuffix)
    else
      Valid
  }

  /** A character `[a-zA-ZÀ-ÿ\s]` accepts. */
  predicate NameChar(c: char)
  {
    IsUpperAscii(c) || IsLowerAscii(c) || ('\U{C0}' <= c <= '\U{FF}') || IsSpace(c)
  }

  predicate AllNameChars(s: string)
  {
    forall i :: 0 <= i < |s| ==> NameChar(s[i])
  }

  /** `NAME_PATTERN.match`: one or more accepted characters and nothing else. */
  function MatchesName(s: string): (r: bool)
    ensures r <==> s != [] && AllNameChars(s)
  {
    if s == [] then false
    else if |s| == 1 then NameChar(s[0])
    else NameChar(s[0]) && MatchesName(s[1..])
  }

  /**
   * `validate_name`: an empty value passes (the required check reports it);
   * otherwise the stripped value must have 2 to 100 characters, all letters,
   * Latin-1 letters or whitespace.
   */
  function ValidateName(value: string, field: string): (r: Check)
    ensures r.Valid? <==> value == [] || (2 <= |Strip(value)| <= 100 && AllNameChars(Strip(value)))
    ensures r.Invalid? ==> r.field == field
    ensures r.Invalid? && |Strip(value)| < 2 ==> r.message == NameTooShort
    ensures r.Invalid? && 2 <= |Strip(value)| ==>
      r.message == if |Strip(value)| > 100 then NameTooLong else NameBadChars
  {
    if value == [] then Valid
    else if |Strip(value)| < 2 then Invalid(field, NameTooShort)
    else if |Strip(value)| > 100 then Invalid(field, NameTooLong)
    else if !MatchesName(Strip(value)) then Invalid(field, NameBadChars)
    else Valid
  }

  /**
   * `validate_phone`: passes exactly when the value is empty or holds 10 or
   * 11 digits, whatever else it holds. The third test in the source repeats
   * the first and can never fire.
   */
  function ValidatePhone(value: string, field: string): (r: Check)
    ensures r.Valid? <==> value == [] || 10 <= |OnlyDigits(value)| <= 11
    ensures r.Invalid? ==>
      r.field == field && r.message == if |OnlyDigits(value)| < 10 then PhoneTooShort else PhoneTooLong
  {
    if value == [] then Valid
    else
      var digits := OnlyDigits(value);
      if |digits| < 10 then Invalid(field, PhoneTooShort)
      else if |digits| > 11 then Invalid(field, PhoneTooLong)
      else if |digits| < 10 then Invalid(field, PhoneTooShort)
      else Valid
  }

  /** `validate_function`: empty passes; otherwise the stripped value has 3 to 100 characters. */
  function ValidateFunction(value: string, field: string): (r: Check)
    ensures r.Valid? <==> value == [] || 3 <= |Strip(value)| <= 100
    ensures r.Invalid? ==> r.field == field && r.message == if |Strip(value)| < 3 then RoleTooShort else RoleTooLong
  {
    if value == [] then Valid
    else if |Strip(value)| < 3 then Invalid(field, RoleTooShort)
    else if |Strip(value)| > 100 then Invalid(field, RoleTooLong)
    else Valid
  }

  /** The prefixes of the accepted asset identifier patterns, in the order they are tried. */
  const AssetPrefixes: seq<string> := ["CEL", "PC", "FON", "MO", "NOT", "IMP", "FRAG", "CAD"]

  predicate AllCapitals(s: string)
  {
    forall i :: 0 <= i < |s| ==> IsUpperAscii(s[i])
  }

  /** Splits off the longest run of ASCII capitals at the start. */
  function SplitLeadingCapitals(s: string): (r: (string, string))
    ensures r.0 + r.1 == s
    ensures AllCapitals(r.0)
    ensures r.1 == [] || !IsUpperAscii(r.1[0])
  {
    if s != [] && IsUpperAscii(s[0]) then
      var parts := SplitLeadingCapitals(s[1..]);
      var letters := [s[0]] + parts.0;
      assert letters + parts.1 == [s[0]] + (parts.0 + parts.1);
      assert [s[0]] + s[1..] == s;
      assert forall i :: 1 <= i < |letters| ==> letters[i] == parts.0[i - 1];
      (letters, parts.1)
    else ([], s)
  }

  lemma {:induction false} SplitLeadingCapitalsAt(l: string, rest: string)
    requires AllCapitals(l)
    requires rest == [] || !IsUpperAscii(rest[0])
    ensures SplitLeadingCapitals(l + rest) == (l, rest)
  {
    if l == [] {
      assert l + rest == rest;
    } else {
      assert (l + rest)[0] == l[0] && (l + rest)[1..] == l[1..] + rest;
      SplitLeadingCapitalsAt(l[1..], rest);
      assert [l[0]] + l[1..] == l;
    }
  }

  /** `^[A-Z]{2,}\d+$`: at least two capitals, then at least one digit, and nothing else. */
  predicate LettersThenDigits(s: string)
  {
    var (letters, rest) := SplitLeadingCapitals(s);
    |letters| >= 2 && rest != [] && AllDigits(rest)
  }

  /** `^P\d+$` for the prefix `p`. */
  predicate PrefixThenDigits(s: string, p: string)
  {
    StartsWith(s, p) && |s| > |p| && AllDigits(s[|p|..])
  }

  /** The loop over the accepted patterns, returning at the first match. */
  function MatchesAnyPrefix(s: string, prefixes: seq<string>): bool
  {
    if prefixes == [] then false
    else if PrefixThenDigits(s, prefixes[0]) then true
    else MatchesAnyPrefix(s, prefixes[1..])
  }

  /** The loop finds a match exactly when some pattern matches. */
  lemma {:induction false} MatchesAnyPrefixSpec(s: string, prefixes: seq<string>)
    ensures MatchesAnyPrefix(s, prefixes) <==> exists k :: 0 <= k < |prefixes| && PrefixThenDigits(s, prefixes[k])
  {
    if prefixes != [] && !PrefixThenDigits(s, prefixes[0]) {
      MatchesAnyPrefixSpec(s, prefixes[1..]);
      if exists k :: 0 <= k < |prefixes| && PrefixThenDigits(s, prefixes[k]) {
        var k :| 0 <= k < |prefixes| && PrefixThenDigits(s, prefixes[k]);
        assert prefixes[k] == prefixes[1..][k - 1];
      }
    }
  }

  /** Every accepted pattern also passes the two-letters check, so that check never rejects an accepted identifier. */
  lemma AcceptedPrefixPassesLetterCheck(s: string, k: nat)
    requires k < |AssetPrefixes| && PrefixThenDigits(s, AssetPrefixes[k])
    ensures LettersThenDigits(s)
  {
    var p := AssetPrefixes[k];
    var d := s[|p|..];
    assert s == p + d;
    assert AllCapitals(p);
    SplitLeadingCapitalsAt(p, d);
  }

  /** One of the registered prefixes followed directly by one or more digits. */
  predicate AcceptedAsset(key: string)
  {
    exists k :: 0 <= k < |AssetPrefixes| && PrefixThenDigits(key, AssetPrefixes[k])
  }

  /** The normalised identifier `validate_asset` checks. */
  function AssetKey(value: string): string
  {
    Upper(Strip(value))
  }

  /** `validate_asset`: the stripped, uppercased value must have letters then digits, then match a registered pattern. */
  function ValidateAsset(value: string, field: string): (r: Check)
    ensures r.Invalid? ==> r.field == field
  {
    if value == [] then Valid
    else
      var key := AssetKey(value);
      if !LettersThenDigits(key) then Invalid(field, AssetNeedsLetters)
      else if MatchesAnyPrefix(key, AssetPrefixes) then Valid
      else Invalid(field, AssetBadFormat)
  }

  /**
   * An empty value passes; otherwise `validate_asset` accepts exactly the
   * identifiers that, stripped and uppercased, are one of the registered
   * prefixes followed directly by one or more digits.
   */
  lemma ValidateAssetSpec(value: string, field: string)
    ensures ValidateAsset(value, field).Valid? <==> value == [] || AcceptedAsset(AssetKey(value))
  {
    if value != [] {
      var key := AssetKey(value);
      MatchesAnyPrefixSpec(key, AssetPrefixes);
      if !LettersThenDigits(key) {
        forall k | 0 <= k < |AssetPrefixes| ensures !PrefixThenDigits(key, AssetPrefixes[k]) {
          if PrefixThenDigits(key, AssetPrefixes[k]) {
            AcceptedPrefixPassesLetterCheck(key, k);
          }
        }
      }
    }
  }

  /** A rejected identifier gets the two-letters message unless it already has the letters-then-digits shape. */
  lemma ValidateAssetMessage(value: string, field: string)
    requires ValidateAsset(value, field).Invalid?
    ensures ValidateAsset(value, field).message ==
      if LettersThenDigits(AssetKey(value)) then AssetBadFormat else AssetNeedsLetters
  {
  }

  /** `validate_observation`: fails exactly when the stripped value exceeds 500 characters. */
  function ValidateObservation(value: string, field: string): (r: Check)
    ensures r.Invalid? <==> |Strip(value)| > 500
    ensures r.Invalid? ==> r == Invalid(field, ObservationTooLong)
  {
    if value == [] then Valid
    else if |Strip(value)| > 500 then Invalid(field, ObservationTooLong)
    else Valid
  }

  /** `validate_select_field`: fails exactly when nothing was selected. */
  function ValidateSelectField(value: string, field: string): (r: Check)
    ensures r.Invalid? <==> value == []
    ensures r.Invalid? ==> r == Invalid(field, SelectDisplayName(field) + RequiredSuffix)
  {
    if value == [] then Invalid(field, SelectDisplayName(field) + RequiredSuffix) else Valid
  }

  // ---------------------------------------------------------------------------
  // validate_form_data
  // ---------------------------------------------------------------------------

  /** The error a check appends, if any. */
  function ErrorOf(c: Check): seq<FieldError>
  {
    match c
    case Valid => []
    case Invalid(field, message) => [FieldError(field, message)]
  }

  /** The errors of the first `n` checks, in order: one per failed check. */
  function ErrorsUpTo(checks: seq<Check>, n: nat): seq<FieldError>
    requires n <= |checks|
  {
    if n == 0 then [] else ErrorsUpTo(checks, n - 1) + ErrorOf(checks[n - 1])
  }

  /** There is at most one error per check. */
  lemma {:induction false} ErrorsLength(checks: seq<Check>, n: nat)
    requires n <= |checks|
    ensures |ErrorsUpTo(checks, n)| <= n
  {
    if n > 0 {
      ErrorsLength(checks, n - 1);
    }
  }

  /** When every check passes, no error is collected. */
  lemma {:induction false} AllValidNoErrors(checks: seq<Check>, n: nat)
    requires n <= |checks|
    requires forall j :: 0 <= j < n ==> checks[j].Valid?
    ensures ErrorsUpTo(checks, n) == []
  {
    if n > 0 {
      AllValidNoErrors(checks, n - 1);
    }
  }

  /** A failed check contributes its field and message. */
  lemma {:induction false} FailedCheckIsReported(checks: seq<Check>, n: nat, j: nat)
    requires j < n <= |checks| && checks[j].Invalid?
    ensures FieldError(checks[j].field, checks[j].message) in ErrorsUpTo(checks, n)
  {
    var e := FieldError(checks[j].field, checks[j].message);
    assert ErrorsUpTo(checks, n) == ErrorsUpTo(checks, n - 1) + ErrorOf(checks[n - 1]);
    if j < n - 1 {
      FailedCheckIsReported(checks, n - 1, j);
      assert e in ErrorsUpTo(checks, n - 1);
    } else {
      assert ErrorOf(checks[j]) == [e];
    }
  }

  /** No error is collected exactly when every check passes. */
  lemma ErrorsEmptyIffAllValid(checks: seq<Check>, n: nat)
    requires n <= |checks|
    ensures ErrorsUpTo(checks, n) == [] <==> forall j :: 0 <= j < n ==> checks[j].Valid?
  {
    if forall j :: 0 <= j < n ==> checks[j].Valid? {
      AllValidNoErrors(checks, n);
    } else {
      var j :| 0 <= j < n && !checks[j].Valid?;
      FailedCheckIsReported(checks, n, j);
    }
  }

  /** Every collected error comes from a failed check with that field and message. */
  lemma {:induction false} ErrorComesFromCheck(checks: seq<Check>, n: nat, e: FieldError)
    requires n <= |checks| && e in ErrorsUpTo(checks, n)
    ensures exists j :: 0 <= j < n && checks[j] == Invalid(e.field, e.message)
  {
    assert n > 0;
    assert ErrorsUpTo(checks, n) == ErrorsUpTo(checks, n - 1) + ErrorOf(checks[n - 1]);
    if e in ErrorsUpTo(checks, n - 1) {
      ErrorComesFromCheck(checks, n - 1, e);
    } else {
      assert e in ErrorOf(checks[n - 1]);
      assert checks[n - 1] == Invalid(e.field, e.message);
    }
  }

  /** When the first check fails, its error is the first one collected. */
  lemma {:induction false} FirstFailureIsFirstError(checks: seq<Check>, n: nat)
    requires 0 < n <= |checks| && checks[0].Invalid?
    ensures ErrorsUpTo(checks, n) != []
    ensures ErrorsUpTo(checks, n)[0] == FieldError(checks[0].field, checks[0].message)
  {
    if n > 1 {
      FirstFailureIsFirstError(checks, n - 1);
    }
  }

  /** The required fields, in the order they are checked. */
  function RequiredFields(form: Form): seq<(string, string)>
  {
    [("nome", form.nome), ("funcao", form.funcao), ("departamento", form.departamento),
     ("telefone", form.telefone), ("empresa", form.empresa)]
  }

  /** The `validate_required` check of each required field. */
  function RequiredChecks(fields: seq<(string, string)>): (r: seq<Check>)
    ensures |r| == |fields|
  {
    if fields == [] then []
    else
      var last := fields[|fields| - 1];
      RequiredChecks(fields[..|fields| - 1]) + [ValidateRequired(last.1, last.0)]
  }

  lemma {:induction false} RequiredChecksAt(fields: seq<(string, string)>, k: nat)
    requires k < |fields|
    ensures RequiredChecks(fields)[k] == ValidateRequired(fields[k].1, fields[k].0)
  {
    var front := fields[..|fields| - 1];
    if k < |front| {
      RequiredChecksAt(front, k);
      assert front[k] == fields[k];
    }
  }

  /** One more required field adds its own error, if any. */
  lemma RequiredStep(fields: seq<(string, string)>, k: nat)
    requires k < |fields|
    ensures ErrorsUpTo(RequiredChecks(fields), k + 1)
      == ErrorsUpTo(RequiredChecks(fields), k) + ErrorOf(ValidateRequired(fields[k].1, fields[k].0))
  {
    RequiredChecksAt(fields, k);
  }

  /** The errors for `outrosFuncao`, checked only when the raw role is `outros`. */
  function OtherRoleErrors(form: Form): seq<FieldError>
  {
    if form.funcao == "outros" then
      var required := ValidateRequired(form.outrosFuncao, "outrosFuncao");
      if required.Invalid? then ErrorOf(required)
      else if form.outrosFuncao != [] then ErrorOf(ValidateFunction(form.outrosFuncao, "outrosFuncao"))
      else []
    else []
  }

  /** The format errors for the name, the phone and the role, in that order. */
  function FormatErrors(form: Form): seq<FieldError>
  {
    (if form.nome != [] then ErrorOf(ValidateName(form.nome, "nome")) else [])
    + (if form.telefone != [] then ErrorOf(ValidatePhone(form.telefone, "telefone")) else [])
    + (if form.funcao != [] then ErrorOf(ValidateFunction(form.funcao, "funcao")) else [])
    + OtherRoleErrors(form)
  }

  /**
   * What the format checks accept: a name, phone and role that are empty or
   * pass their validators, and, when the role is `outros`, a filled-in
   * specific role that passes the role validator.
   */
  predicate FormatValid(form: Form)
  {
    && (form.nome == [] || ValidateName(form.nome, "nome").Valid?)
    && (form.telefone == [] || ValidatePhone(form.telefone, "telefone").Valid?)
    && (form.funcao == [] || ValidateFunction(form.funcao, "funcao").Valid?)
    && (form.funcao == "outros" ==>
          ValidateRequired(form.outrosFuncao, "outrosFuncao").Valid?
          && ValidateFunction(form.outrosFuncao, "outrosFuncao").Valid?)
  }

  /** The format checks report nothing exactly when the form is format-valid. */
  lemma FormatErrorsEmptyIff(form: Form)
    ensures FormatErrors(form) == [] <==> FormatValid(form)
  {
  }

  predicate HasNonBlank(values: seq<string>)
  {
    exists i :: 0 <= i < |values| && !IsBlank(values[i])
  }

  function IndexedField(name: string, i: nat): string
  {
    name + "_" + NatToString(i)
  }

  /** The check of the asset at position `i`: a blank one is skipped. */
  function AssetCheck(assets: seq<string>, i: nat): Check
    requires i < |assets|
  {
    if IsBlank(assets[i]) then Valid else ValidateAsset(assets[i], IndexedField("patrimonio", i))
  }

  /** The check of every asset, in order. */
  function AssetChecks(assets: seq<string>): (r: seq<Check>)
    ensures |r| == |assets|
  {
    if assets == [] then [] else AssetChecks(assets[..|assets| - 1]) + [AssetCheck(assets, |assets| - 1)]
  }

  lemma {:induction false} AssetChecksAt(assets: seq<string>, i: nat)
    requires i < |assets|
    ensures AssetChecks(assets)[i] == AssetCheck(assets, i)
  {
    var front := assets[..|assets| - 1];
    if i < |front| {
      AssetChecksAt(front, i);
      assert front[i] == assets[i];
    }
  }

  /** One more asset adds its own error, if any. */
  lemma AssetStep(assets: seq<string>, i: nat)
    requires i < |assets|
    ensures ErrorsUpTo(AssetChecks(assets), i + 1)
      == ErrorsUpTo(AssetChecks(assets), i) + ErrorOf(AssetCheck(assets, i))
  {
    AssetChecksAt(assets, i);
  }

  /** One `patrimonio` error when no asset is given, else the per-asset errors. */
  function AssetErrors(assets: seq<string>): seq<FieldError>
  {
    if !HasNonBlank(assets) then [FieldError("patrimonio", NoAssetMessage)]
    else ErrorsUpTo(AssetChecks(assets), |assets|)
  }

  /** The check of the observation at position `i`: a blank one is skipped. */
  function ObservationCheck(observations: seq<string>, i: nat): Check
    requires i < |observations|
  {
    if IsBlank(observations[i]) then Valid else ValidateObservation(observations[i], IndexedField("observacao", i))
  }

  /** The check of every observation, in order. */
  function ObservationChecks(observations: seq<string>): (r: seq<Check>)
    ensures |r| == |observations|
  {
    if observations == [] then []
    else ObservationChecks(observations[..|observations| - 1]) + [ObservationCheck(observations, |observations| - 1)]
  }

  lemma {:induction false} ObservationChecksAt(observations: seq<string>, i: nat)
    requires i < |observations|
    ensures ObservationChecks(observations)[i] == ObservationCheck(observations, i)
  {
    var front := observations[..|observations| - 1];
    if i < |front| {
      ObservationChecksAt(front, i);
      assert front[i] == observations[i];
    }
  }

  /** One more observation adds its own error, if any. */
  lemma ObservationStep(observations: seq<string>, i: nat)
    requires i < |observations|
    ensures ErrorsUpTo(ObservationChecks(observations), i + 1)
      == ErrorsUpTo(ObservationChecks(observations), i) + ErrorOf(ObservationCheck(observations, i))
  {
    ObservationChecksAt(observations, i);
  }

  /** Every error of the form, in the order `validate_form_data` appends them. */
  function FormErrors(form: Form): seq<FieldError>
  {
    ErrorsUpTo(RequiredChecks(RequiredFields(form)), 5) + FormatErrors(form)
    + AssetErrors(form.patrimonios)
    + ErrorsUpTo(ObservationChecks(form.observacoes), |form.observacoes|)
  }

  /** The body of the required-fields loop: the error of field `k`, if any. */
  method CheckRequired(fields: seq<(string, string)>, k: nat) returns (found: seq<FieldError>)
    requires k < |fields|
    ensures ErrorsUpTo(RequiredChecks(fields), k + 1) == ErrorsUpTo(RequiredChecks(fields), k) + found
  {
    RequiredStep(fields, k);
    found := [];
    var result := ValidateRequired(fields[k].1, fields[k].0);
    if result.Invalid? {
      found := [FieldError(result.field, result.message)];
    }
  }

  /** The loop over the required fields. */
  method CollectRequiredErrors(fields: seq<(string, string)>) returns (errors: seq<FieldError>)
    ensures errors == ErrorsUpTo(RequiredChecks(fields), |fields|)
  {
    errors := [];
    var k := 0;
    while k < |fields|
      invariant 0 <= k <= |fields|
      invariant errors == ErrorsUpTo(RequiredChecks(fields), k)
    {
      var found := CheckRequired(fields, k);
      errors := errors + found;
      k := k + 1;
    }
  }

  /** The `any(asset.strip() ...)` test, stopping at the first non-blank asset. */
  method AnyNonBlank(values: seq<string>) returns (any: bool)
    ensures any <==> HasNonBlank(values)
  {
    any := false;
    var i := 0;
    while i < |values| && !any
      invariant 0 <= i <= |values|
      invariant any <==> exists j :: 0 <= j < i && !IsBlank(values[j])
    {
      if !IsBlank(values[i]) {
        any := true;
      }
      i := i + 1;
    }
  }

  /** The body of the asset loop: the error of the asset at position `i`, if any. */
  method CheckAsset(assets: seq<string>, i: nat) returns (found: seq<FieldError>)
    requires i < |assets|
    ensures ErrorsUpTo(AssetChecks(assets), i + 1) == ErrorsUpTo(AssetChecks(assets), i) + found
  {
    AssetStep(assets, i);
    found := [];
    if !IsBlank(assets[i]) {
      var field := IndexedField("patrimonio", i);
      var result := ValidateAsset(assets[i], field);
      if result.Invalid? {
        found := [FieldError(field, result.message)];
      }
    }
  }

  /** The per-asset checks, once some asset is known to be non-blank. */
  method CollectAssetErrors(assets: seq<string>) returns (errors: seq<FieldError>)
    ensures errors == ErrorsUpTo(AssetChecks(assets), |assets|)
  {
    errors := [];
    var i := 0;
    while i < |assets|
      invariant 0 <= i <= |assets|
      invariant errors == ErrorsUpTo(AssetChecks(assets), i)
    {
      var found := CheckAsset(assets, i);
      errors := errors + found;
      i := i + 1;
    }
  }

  /** The body of the observation loop: the error of the observation at position `i`, if any. */
  method CheckObservation(observations: seq<string>, i: nat) returns (found: seq<FieldError>)
    requires i < |observations|
    ensures ErrorsUpTo(ObservationChecks(observations), i + 1) == ErrorsUpTo(ObservationChecks(observations), i) + found
  {
    ObservationStep(observations, i);
    found := [];
    if !IsBlank(observations[i]) {
      var field := IndexedField("observacao", i);
      var result := ValidateObservation(observations[i], field);
      if result.Invalid? {
        found := [FieldError(field, result.message)];
      }
    }
  }

  /** The observation checks. */
  method CollectObservationErrors(observations: seq<string>) returns (errors: seq<FieldError>)
    ensures errors == ErrorsUpTo(ObservationChecks(observations), |observations|)
  {
    errors := [];
    var i := 0;
    while i < |observations|
      invariant 0 <= i <= |observations|
      invariant errors == ErrorsUpTo(ObservationChecks(observations), i)
    {
      var found := CheckObservation(observations, i);
      errors := errors + found;
      i := i + 1;
    }
  }

  /** The format checks of the name, the phone and the role, and the `outros` check. */
  method CollectFormatErrors(form: Form) returns (errors: seq<FieldError>)
    ensures errors == FormatErrors(form)
    ensures errors == [] <==> FormatValid(form)
  {
    var nameErrors: seq<FieldError> := [];
    if form.nome != [] {
      nameErrors := ErrorOf(ValidateName(form.nome, "nome"));
    }
    var phoneErrors: seq<FieldError> := [];
    if form.telefone != [] {
      phoneErrors := ErrorOf(ValidatePhone(form.telefone, "telefone"));
    }
    var roleErrors: seq<FieldError> := [];
    if form.funcao != [] {
      roleErrors := ErrorOf(ValidateFunction(form.funcao, "funcao"));
    }
    var otherErrors: seq<FieldError> := [];
    if form.funcao == "outros" {
      var result := ValidateRequired(form.outrosFuncao, "outrosFuncao");
      if result.Invalid? {
        otherErrors := ErrorOf(result);
      } else if form.outrosFuncao != [] {
        otherErrors := ErrorOf(ValidateFunction(form.outrosFuncao, "outrosFuncao"));
      }
    }
    errors := nameErrors + phoneErrors + roleErrors + otherErrors;
    FormatErrorsEmptyIff(form);
  }

  /** `FormValidator.validate_form_data`. */
  method ValidateFormData(form: Form) returns (isValid: bool, errors: seq<FieldError>)
    ensures errors == FormErrors(form)
    ensures isValid <==> errors == []
  {
    errors := CollectRequiredErrors(RequiredFields(form));
    var formatErrors := CollectFormatErrors(form);
    errors := errors + formatErrors;
    var any := AnyNonBlank(form.patrimonios);
    if !any {
      errors := errors + [FieldError("patrimonio", NoAssetMessage)];
    } else {
      var assetErrors := CollectAssetErrors(form.patrimonios);
      errors := errors + assetErrors;
    }
    var observationErrors := CollectObservationErrors(form.observacoes);
    errors := errors + observationErrors;
    isValid := |errors| == 0;
  }

  // ---------------------------------------------------------------------------
  // Properties of the collected errors
  // ---------------------------------------------------------------------------

  /** The required-field errors come first: a blank name is always the first error. */
  lemma BlankNameIsFirstError(form: Form)
    requires IsBlank(form.nome)
    ensures FormErrors(form) != [] && FormErrors(form)[0] == FieldError("nome", "Nome" + RequiredSuffix)
  {
    var checks := RequiredChecks(RequiredFields(form));
    RequiredChecksAt(RequiredFields(form), 0);
    FirstFailureIsFirstError(checks, 5);
  }

  /** The required-field errors are empty exactly when all five fields are filled in. */
  lemma RequiredErrorsIffFilled(form: Form)
    ensures ErrorsUpTo(RequiredChecks(RequiredFields(form)), 5) == [] <==>
      !IsBlank(form.nome) && !IsBlank(form.funcao) && !IsBlank(form.departamento)
      && !IsBlank(form.telefone) && !IsBlank(form.empresa)
  {
    var fields := RequiredFields(form);
    var checks := RequiredChecks(fields);
    ErrorsEmptyIffAllValid(checks, 5);
    forall k | 0 <= k < 5 ensures checks[k].Valid? <==> !IsBlank(fields[k].1) {
      RequiredChecksAt(fields, k);
    }
    if !IsBlank(form.nome) && !IsBlank(form.funcao) && !IsBlank(form.departamento)
      && !IsBlank(form.telefone) && !IsBlank(form.empresa)
    {
      forall k | 0 <= k < 5 ensures checks[k].Valid? {
        assert k == 0 || k == 1 || k == 2 || k == 3 || k == 4;
      }
    } else {
      assert !checks[0].Valid? || !checks[1].Valid? || !checks[2].Valid?
        || !checks[3].Valid? || !checks[4].Valid?;
    }
  }

  /** The asset at position `j` is blank or passes `validate_asset`. */
  predicate AssetPasses(assets: seq<string>, j: nat)
    requires j < |assets|
  {
    IsBlank(assets[j]) || AcceptedAsset(AssetKey(assets[j]))
  }

  /** The check of one identifier passes exactly when it is blank or accepted. */
  lemma BlankOrAccepted(value: string, field: string)
    ensures (if IsBlank(value) then Valid else ValidateAsset(value, field)).Valid?
      <==> IsBlank(value) || AcceptedAsset(AssetKey(value))
  {
    if !IsBlank(value) {
      assert value != [];
      ValidateAssetSpec(value, field);
    }
  }

  /** The check of asset `j` passes exactly when the asset is blank or accepted. */
  lemma AssetCheckPasses(assets: seq<string>, j: nat)
    requires j < |assets|
    ensures AssetChecks(assets)[j].Valid? <==> AssetPasses(assets, j)
  {
    AssetChecksAt(assets, j);
    BlankOrAccepted(assets[j], IndexedField("patrimonio", j));
  }

  /** With no non-blank asset there is exactly one error, under the bare `patrimonio` field. */
  lemma NoAssetIsOneError(assets: seq<string>)
    requires !HasNonBlank(assets)
    ensures AssetErrors(assets) == [FieldError("patrimonio", NoAssetMessage)]
  {
  }

  /** Otherwise there are no asset errors exactly when every non-blank asset is accepted. */
  lemma AssetErrorsEmptyIff(assets: seq<string>)
    requires HasNonBlank(assets)
    ensures AssetErrors(assets) == [] <==> forall j :: 0 <= j < |assets| ==> AssetPasses(assets, j)
  {
    var checks := AssetChecks(assets);
    ErrorsEmptyIffAllValid(checks, |assets|);
    forall j | 0 <= j < |assets| ensures checks[j].Valid? <==> AssetPasses(assets, j) {
      AssetCheckPasses(assets, j);
    }
  }

  /** Each asset error names the position of a rejected non-blank asset. */
  lemma AssetErrorNamesRejectedAsset(assets: seq<string>, e: FieldError)
    requires HasNonBlank(assets) && e in AssetErrors(assets)
    ensures exists j :: 0 <= j < |assets| && !AssetPasses(assets, j) && e.field == IndexedField("patrimonio", j)
  {
    var checks := AssetChecks(assets);
    ErrorComesFromCheck(checks, |assets|, e);
    var j :| 0 <= j < |assets| && checks[j] == Invalid(e.field, e.message);
    AssetChecksAt(assets, j);
    AssetCheckPasses(assets, j);
  }

  /** No per-asset error is reported under the bare `patrimonio` field. */
  lemma AssetErrorFieldsAreIndexed(assets: seq<string>, e: FieldError)
    requires HasNonBlank(assets) && e in AssetErrors(assets)
    ensures e.field != "patrimonio"
  {
    AssetErrorNamesRejectedAsset(assets, e);
    var j :| 0 <= j < |assets| && !AssetPasses(assets, j) && e.field == IndexedField("patrimonio", j);
    assert |e.field| > |"patrimonio"|;
  }

  /** A valid form names at least one asset, and every non-blank asset matches a registered pattern. */
  lemma ValidFormHasAcceptedAssets(form: Form)
    requires FormErrors(form) == []
    ensures HasNonBlank(form.patrimonios)
    ensures forall j :: 0 <= j < |form.patrimonios| && !IsBlank(form.patrimonios[j]) ==>
      AcceptedAsset(AssetKey(form.patrimonios[j]))
  {
    var assets := form.patrimonios;
    assert AssetErrors(assets) == [];
    if !HasNonBlank(assets) {
      NoAssetIsOneError(assets);
    }
    AssetErrorsEmptyIff(assets);
    forall j | 0 <= j < |assets| && !IsBlank(assets[j])
      ensures AcceptedAsset(AssetKey(assets[j]))
    {
      assert AssetPasses(assets, j);
    }
  }

  /** A valid form has a phone with 10 or 11 digits. */
  lemma ValidFormHasPhone(form: Form)
    requires FormErrors(form) == []
    ensures 10 <= |OnlyDigits(form.telefone)| <= 11
  {
    assert ErrorsUpTo(RequiredChecks(RequiredFields(form)), 5) == [];
    RequiredErrorsIffFilled(form);
    assert FormatErrors(form) == [];
    assert ValidatePhone(form.telefone, "telefone").Valid?;
  }

  /** A valid form has a name of 2 to 100 letters and spaces once stripped. */
  lemma ValidFormHasName(form: Form)
    requires FormErrors(form) == []
    ensures 2 <= |Strip(form.nome)| <= 100 && AllNameChars(Strip(form.nome))
  {
    assert ErrorsUpTo(RequiredChecks(RequiredFields(form)), 5) == [];
    RequiredErrorsIffFilled(form);
    assert form.nome != [] by {
      if form.nome == [] {
        assert IsBlank(form.nome);
      }
    }
    assert FormatErrors(form) == [];
    FormatErrorsEmptyIff(form);
  }

  /**
   * A valid form has a role of 3 to 100 characters once stripped, and a role
   * of `outros` comes with a specific role of 3 to 100 characters.
   */
  lemma ValidFormHasRole(form: Form)
    requires FormErrors(form) == []
    ensures 3 <= |Strip(form.funcao)| <= 100
    ensures form.funcao == "outros" ==> !IsBlank(form.outrosFuncao) && 3 <= |Strip(form.outrosFuncao)| <= 100
  {
    assert ErrorsUpTo(RequiredChecks(RequiredFields(form)), 5) == [];
    RequiredErrorsIffFilled(form);
    assert form.funcao != [] by {
      if form.funcao == [] {
        assert IsBlank(form.funcao);
      }
    }
    assert FormatErrors(form) == [];
    FormatErrorsEmptyIff(form);
  }

  /** Every non-blank observation of a valid form has at most 500 characters once stripped. */
  lemma ValidFormHasShortObservations(form: Form)
    requires FormErrors(form) == []
    ensures forall j :: 0 <= j < |form.observacoes| ==> |Strip(form.observacoes[j])| <= 500
  {
    var obs := form.observacoes;
    var checks := ObservationChecks(obs);
    assert ErrorsUpTo(checks, |obs|) == [];
    ErrorsEmptyIffAllValid(checks, |obs|);
    forall j | 0 <= j < |obs| ensures |Strip(obs[j])| <= 500 {
      assert checks[j].Valid?;
      ObservationChecksAt(obs, j);
      if IsBlank(obs[j]) {
        StripEmptyIffBlank(obs[j]);
      }
    }
  }
}
