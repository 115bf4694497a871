# termoApp in Dafny

termoApp fills in an equipment hand-over form ("termo de entrega"). It is a
Flask application. A form submission names a user and one or more
equipment identifiers ("patrimônios"). The application does the following:

- It validates the form and normalises the user data.
- It fills the user data and a dated place line into a Word template.
- It looks each identifier up across the sheets of a Google spreadsheet.
- For every row found, it writes the user's name and department back into
  columns `a` and `b` of that row.
- It appends one table row per found item to the template's first table,
  plus an `OBS:` row with the observation at the start of each run of
  equal identifiers.
- Safety caps limit the work: at most 10 identifiers per request, at most
  5 results per identifier, and at most 50 counted updates per request.
  Under the first two caps the counter is at most 49 whenever the third
  cap is tested, so that cap never binds (`Pipeline.CapNeverBinds`). The
  count a request ends with can still reach 50: ten identifiers with five
  fully written hits each. The lemmas about the 50-update cap describe
  the loop for any number of identifiers.
- An in-memory cache with lazy expiry sits beside this.

This project models that core and proves properties of it.

| module | file | models |
|---|---|---|
| `Wrappers` | `wrappers.dfy` | `Option` (Python's `None`) and `Outcome` (returns or raises) |
| `Text` | `text.dfy` | the string builtins the code relies on: `strip`, `upper`/`lower`, `in`, `replace`, `join`, `re.sub(r'\D', '', s)`, `str(n)` |
| `Sheets` | `sheets.dfy` | `SheetsHandler`: `filtrar_lista_por_aba`, `buscar_palavra_em_abas`, the A1 range of `altera_valor_planilha` |
| `Documents` | `document.dfy` | `DocumentEditor`: `formata_numero`, `data_formatada`, `substituir_texto`, `adicionar_linha_tabela`, `adicionar_linha_mesclada` |
| `Validation` | `validation.py` checks in `validation.dfy` | `FieldValidator.validate_*` and `FormValidator.validate_form_data` |
| `Pipeline` | `pipeline.dfy` | the POST branch of `index()` in `app.py`: normalisation, the resolution loop with its caps, the document assembly loop, the whole request |
| `Cache` | `cache.dfy` | `CacheManager` with its memory back end, `_generate_key`, `invalidate_sheet_cache`, and the `cached` wrapper |

Each module follows the form of its source:

- **Pure code** becomes functions and lemmas. This covers the field
  validators, `filtrar_lista_por_aba`, `formata_numero`, `data_formatada`
  and `_generate_key`.
- **Loops that accumulate or break** become methods with loop invariants.
  Each method is proved equal to a specification function, and the lemmas
  are stated about that function. This covers the search, the marker
  substitution, error collection in `validate_form_data`, the resolution
  loop (`ProcessResults`, `ResolveAssets`) and the assembly loop
  (`AssembleDocument`).
- **Objects updated in place** become classes with `modifies` clauses. The
  document editor holds its paragraphs and tables. The cache manager holds
  its dictionary.

External inputs are modelled as follows:

- **The spreadsheet** is a `Spreadsheet` value with two parts:
  - the rows found for identifier `i` (`search`), and
  - how far the two cell updates for hit `j` of identifier `i` got
    (`write`).
- **`buscar_palavra_em_abas`** is modelled separately, over sheets given
  as rows (`Sheets.SearchSheets`).
- **Time** is a parameter: a `Date` for `datetime.now()` and an integer
  `now` for `time.time()`.
- **The MD5 digest** is a function parameter.

## Model

| member | source | states |
|---|---|---|
| Text.TrimStartSpec | src/utils.py:335 | `lstrip` keeps a suffix of the input, removes only whitespace (Python's `isspace` set), and stops at the first other character |
| Text.TrimEndSpec | src/utils.py:335 | `rstrip` keeps a prefix, removes only whitespace, and stops at the last other character |
| Text.StripEmptyIffBlank | src/validation.py:33 | `value.strip()` is empty exactly when every character of `value` is whitespace |
| Text.StripHasNoOuterSpace | src/utils.py:335 | a stripped string has no whitespace at either end |
| Text.ForeignCharNotContained | src/cache.py:118 | a pattern holding a character that the key lacks is never a substring of the key |
| Text.ReplaceAbsentIsIdentity | src/utils.py:132-133 | `str.replace` with a non-empty marker that does not occur returns the text unchanged |
| Text.OnlyDigits | src/utils.py:115 | `re.sub(r'\D', '', s)` returns only digits and is no longer than `s` |
| Text.OnlyDigitsOfDigits | src/utils.py:115 | removing non-digits from a string of digits changes nothing |
| Text.OnlyDigitsAppend | src/utils.py:115 | removing non-digits distributes over concatenation |
| Text.NatToString | src/utils.py:306 | `str(n)` is a non-empty string of digits without a leading zero |
| Text.ParseNatToString | src/utils.py:306 | `int(str(n)) == n` |
| Text.NatToStringInjective | src/utils.py:306 | distinct row numbers render to distinct strings |
| Sheets.CleanRowAppend | src/utils.py:335 | cleaning a row works cell by cell: it distributes over concatenation |
| Sheets.CleanRowCellsAreTrimmed | src/utils.py:335 | every cell kept by cleaning is non-empty and has no outer whitespace |
| Sheets.IndicesBelow | src/utils.py:349 | every index kept is below the cleaned row's length, so the projection never indexes past the row, and no more indices are kept than were registered |
| Sheets.ProjectPicksIndices | src/utils.py:349 | the projection has one field per usable index, and field `k` is the cleaned cell at the `k`-th usable index |
| Sheets.FilterBySheet | src/utils.py:333-349 | the result has at most as many fields as the sheet registers; an unregistered sheet gives no fields |
| Sheets.FilterBySheetFields | src/utils.py:333-349 | field `k` of the result is the cleaned cell at the `k`-th registered index below the row length, and every field is trimmed and non-empty |
| Sheets.RowHasMatch | src/utils.py:270-274 | the cell scan finds a match exactly when some cell, lower-cased, contains the lower-cased term |
| Sheets.ScanRows | src/utils.py:269-274 | the row loop of one sheet returns that sheet's hits, in row order, at most one per row |
| Sheets.SearchSheets | src/utils.py:258-279 | `buscar_palavra_em_abas` returns the hits sheet by sheet, in the given order |
| Sheets.SheetHitsAreMatches | src/utils.py:269-273 | every hit names its sheet and a 1-based row number whose row matches the term and is the hit's row |
| Sheets.SheetHitsComplete | src/utils.py:269-274 | every matching row is reported, and row numbers strictly increase, so no row is reported twice |
| Sheets.SearchAppend | src/utils.py:261-279 | searching a concatenation of sheet lists concatenates the results |
| Sheets.FailedSheetIsSkipped | src/utils.py:276-277 | a sheet that fails to load contributes nothing; the other sheets are still searched |
| Sheets.A1RangeRoundTrip | src/utils.py:306 | the range `f"{aba}!{coluna}{linha}"` can be read back into sheet, column and row, even for a sheet name containing `!` or digits |
| Documents.FormatPhoneShape | src/utils.py:113-123 | a mask is produced exactly for 10 or 11 digits; it reads `(DD) ` then the digits with a dash before the last four, and removing the punctuation gives back the digits |
| Documents.FormattedDateRoundTrip | src/utils.py:90-92 | the line `Goiânia, <day> de <month name> de <year>` can be read back into the date |
| Documents.DictPutLookup | src/utils.py:126-127 | after `substituicoes["data"] = ...` the key maps to the date and every other key keeps its value |
| Documents.DictPutKeys | src/utils.py:126-127 | the assignment keeps the key order; a new key goes last |
| Documents.ApplySubsWithoutMarkers | src/utils.py:131-133 | a run that contains none of the markers is left unchanged |
| Documents.ApplySubsAppend | src/utils.py:131-133 | the markers are applied one after another to the run's current text: applying a dictionary is applying its first entries and then the rest to the result |
| Documents.ValueHoldingLaterMarker | src/utils.py:126-133 | a value that holds a later marker is substituted again: a company written `data sa` in a run holding `empresa` ends up with the date in it, while with `data` first it stays as written |
| Documents.SplitMarkerIsNotReplaced | src/utils.py:129-133 | substitution is run by run: a marker split over two runs stays, while the same marker inside one run is replaced |
| Documents.ReplaceInParagraph | src/utils.py:129-133 | the two inner loops over runs and markers give each run every marker replaced, in dictionary order |
| Documents.ReplaceInCell | src/utils.py:138-142 | every paragraph of a cell is substituted |
| Documents.ReplaceInRow | src/utils.py:137-142 | the cells of a row are visited once per grid column, so a merged cell is substituted once per column it spans |
| Documents.ReplaceInTable | src/utils.py:135-142 | every row of a table is substituted |
| Documents.FilledRowCells | src/utils.py:151-154 | a data row has one cell per column; cell `k` holds `dados[k]` when there is one, and an empty paragraph otherwise |
| Documents.DocumentEditor.constructor | src/utils.py:84-88 | the editor holds the template's paragraphs and tables |
| Documents.DocumentEditor.SubstituteText | src/utils.py:125-142 | the dictionary used gains `"data"` when asked; the body paragraphs and then every table are substituted with it |
| Documents.DocumentEditor.AddTableRow | src/utils.py:144-160 | no table: it raises and nothing changes. Otherwise a row is appended first; then wrong-sized `dados` raise, leaving the empty row, and three values fill the row |
| Documents.DocumentEditor.AddMergedRow | src/utils.py:162-176 | no table: it raises. A table without columns gets an empty row and an index error. Otherwise one merged row holding the text is appended |
| Validation.ValidateRequired | src/validation.py:31-49 | fails exactly on an empty or whitespace-only value, with `"<display name> é obrigatório"` |
| Validation.TitleFromSpec | src/validation.py:43 | `str.title()` keeps the length of the field name, lowers every character that follows a letter and raises every other one |
| Validation.MatchesName | src/validation.py:28 | the name pattern accepts exactly non-empty strings of ASCII letters, Latin-1 letters and whitespace |
| Validation.ValidateName | src/validation.py:52-81 | valid exactly when empty, or when the stripped value has 2 to 100 accepted characters; the messages come in the source's order: too short, then too long, then bad characters |
| Validation.ValidatePhone | src/validation.py:84-115 | valid exactly when empty or holding 10 or 11 digits; the message says too short below 10 digits, too long otherwise |
| Validation.ValidateFunction | src/validation.py:118-139 | valid exactly when empty or when the stripped length is between 3 and 100; a rejected role gets the too-short message below 3 characters and the too-long message otherwise |
| Validation.MatchesAnyPrefixSpec | src/validation.py:170-172 | trying the patterns in turn succeeds exactly when some registered prefix followed by digits matches |
| Validation.AcceptedPrefixPassesLetterCheck | src/validation.py:150-162 | every registered pattern has at least two capitals before its digits, so it passes the letter check |
| Validation.ValidateAsset | src/validation.py:142-180 | an error names the field being checked |
| Validation.ValidateAssetSpec | src/validation.py:142-180 | valid exactly when empty, or when the stripped, upper-cased value is one of CEL, PC, FON, MO, NOT, IMP, FRAG, CAD followed by one or more digits |
| Validation.ValidateAssetMessage | src/validation.py:162-180 | a rejected identifier gets the two-letters message unless it already has the letters-then-digits shape |
| Validation.ValidateObservation | src/validation.py:183-196 | fails exactly when the stripped value is longer than 500 characters |
| Validation.ValidateSelectField | src/validation.py:199-214 | fails exactly when nothing was selected, naming the field's display name |
| Validation.ErrorsLength | src/validation.py:233-239 | the collecting loops append at most one error per check |
| Validation.AllValidNoErrors | src/validation.py:233-239 | checks that all pass append nothing |
| Validation.FailedCheckIsReported | src/validation.py:233-239 | every failed check's error is in the list |
| Validation.ErrorsEmptyIffAllValid | src/validation.py:233-239 | no error exactly when every check passes |
| Validation.ErrorComesFromCheck | src/validation.py:233-239 | every error comes from a failed check |
| Validation.FirstFailureIsFirstError | src/validation.py:233-239 | the errors keep the checks' order: a failed first check gives the first error |
| Validation.CheckRequired | src/validation.py:234-239 | one required field adds its own error, if any |
| Validation.CollectRequiredErrors | src/validation.py:232-239 | the required-field loop returns the errors of the fields in order |
| Validation.AnyNonBlank | src/validation.py:284 | `any(asset.strip() for asset in assets)` |
| Validation.CheckAsset | src/validation.py:291-297 | one identifier adds its own error (as `patrimonio_i`), if any |
| Validation.CollectAssetErrors | src/validation.py:290-297 | the identifier loop returns the per-identifier errors in order |
| Validation.CheckObservation | src/validation.py:302-308 | one observation adds its own error (as `observacao_i`), if any |
| Validation.CollectObservationErrors | src/validation.py:301-308 | the observation loop returns the per-observation errors in order |
| Validation.CollectFormatErrors | src/validation.py:241-280 | the format checks report nothing exactly when the name, phone and role are empty or pass their validators and, for the role `outros`, the specific role is filled in and passes the role validator |
| Validation.FormatErrorsEmptyIff | src/validation.py:241-280 | the same if-and-only-if, stated of the format errors |
| Validation.ValidateFormData | src/validation.py:222-310 | the collected errors are those of every check in order, without stopping early, and `is_valid` holds exactly when there are none |
| Validation.BlankNameIsFirstError | src/validation.py:232-239 | a blank name is always the first error reported |
| Validation.RequiredErrorsIffFilled | src/validation.py:232-239 | the required fields report nothing exactly when all five are filled |
| Validation.AssetCheckPasses | src/validation.py:290-297 | identifier `j` passes exactly when it is blank or accepted |
| Validation.NoAssetIsOneError | src/validation.py:284-288 | with no non-blank identifier there is exactly one `patrimonio` error |
| Validation.AssetErrorsEmptyIff | src/validation.py:289-297 | otherwise there is no identifier error exactly when every identifier passes |
| Validation.AssetErrorNamesRejectedAsset | src/validation.py:290-297 | every identifier error names, as `patrimonio_<j>`, an identifier `j` that was rejected |
| Validation.AssetErrorFieldsAreIndexed | src/validation.py:284-297 | when an identifier is given, no error uses the bare `patrimonio` field |
| Validation.ValidFormHasAcceptedAssets | src/validation.py:283-297 | a valid form has a non-blank identifier, and every non-blank identifier is accepted |
| Validation.ValidFormHasPhone | src/validation.py:232-256 | a valid form has a phone with 10 or 11 digits |
| Validation.ValidFormHasName | src/validation.py:232-248 | a valid form has a name of 2 to 100 letters and spaces once stripped |
| Validation.ValidFormHasRole | src/validation.py:232-280 | a valid form has a role of 3 to 100 characters once stripped, and the role `outros` comes with a non-blank specific role of 3 to 100 characters |
| Validation.ValidFormHasShortObservations | src/validation.py:300-308 | a valid form has no observation longer than 500 characters once stripped |
| Pipeline.UpperIsNormal | src/app.py:87-88 | upper-casing leaves no lower-case letter and is idempotent |
| Pipeline.LowerIsNormal | src/app.py:91 | lower-casing leaves no upper-case letter and is idempotent |
| Pipeline.LookupFindsEntry | src/app.py:89 | a dictionary lookup that succeeds returns an entry of the dictionary; one that fails means there is none for the key |
| Pipeline.NormalizedCase | src/app.py:86-107 | name, role and department are upper case and company lower case, all stable under a second normalisation; the phone is as typed |
| Pipeline.NormalizedDepartment | src/app.py:89 | the department is empty exactly when the code is not in `DEPARTAMENTOS_WEB`, and otherwise is the upper-cased name the table gives it |
| Pipeline.OtherRoleCaseGap | src/app.py:106-107 | a role typed as `Outros` with no `outrosFuncao` passes validation (which checks only `outros`) but is replaced by an empty role |
| Pipeline.FirstResults | src/app.py:187-189 | the kept results are a prefix of the search results: all of them when there are at most five, otherwise exactly the first five |
| Pipeline.ItemIgnoresWriteOutcome | src/app.py:199-222 | the item kept for a hit does not depend on whether its spreadsheet updates went through |
| Pipeline.CapIsFinal | src/app.py:192-196 | once the update counter reaches 50, the remaining results of the identifier change nothing |
| Pipeline.ProcessResults | src/app.py:192-222 | the loop over one identifier's results, with its `break`, computes the specified resolution |
| Pipeline.ResolveAssets | src/app.py:168-225 | the loop over the identifiers computes the specified resolution of the request |
| Pipeline.ResultsKeepCap | src/app.py:194-204 | handling results never takes the counter past 50 |
| Pipeline.UpdatesWithinCap | src/app.py:171-204 | a request never counts more than 50 updates |
| Pipeline.ResultsKeepNotFound | src/app.py:192-222 | handling results never touches the not-found list |
| Pipeline.NotFoundAreMissing | src/app.py:173-225 | the not-found list is exactly the non-empty identifiers whose search returned nothing, in order |
| Pipeline.ResultsAtCap | src/app.py:194-196 | a scan that starts at the cap changes nothing |
| Pipeline.AssetAtCap | src/app.py:173-196 | once at the cap, an identifier adds no item, no update and no write |
| Pipeline.CapFreezesResolution | src/app.py:171-225 | once the cap is reached, later identifiers add no item, update or write |
| Pipeline.ResultsAddAtMostOneItemEach | src/app.py:211-222 | each result adds at most one item |
| Pipeline.AtMostFiveItemsPerAsset | src/app.py:185-222 | one identifier adds at most five items |
| Pipeline.ResultsAddAtMostOneUpdateEach | src/app.py:199-204 | each result moves the update counter by at most one |
| Pipeline.AtMostFiveUpdatesPerAsset | src/app.py:171-204 | after `n` identifiers the counter is at most `5 * n` |
| Pipeline.CapNeverBinds | src/app.py:147-196 | with at most 10 identifiers the counter is below 50 before every result, so the `break` at the 50-update cap is never taken |
| Pipeline.ProjectionTrimmed | src/app.py:211 | every field of a projected row is non-empty and trimmed |
| Pipeline.ItemsFromGrow | src/app.py:218-222 | items of the first identifiers remain items of a longer prefix |
| Pipeline.ItemsFromAppend | src/app.py:218-222 | appending a well-formed item keeps every item well formed |
| Pipeline.ResultsItemsFrom | src/app.py:211-222 | every item added for an identifier has fields `["01", ..., last]` with a trimmed last field, that identifier, and its observation |
| Pipeline.ItemsAreWellFormed | src/app.py:173-222 | every item of the resolution has three fields starting with `"01"`, comes from a non-empty identifier of the request, and carries `observacoes[i]` or `""` |
| Pipeline.HitItemsAppend | src/app.py:192-222 | the items of a concatenation of hit lists are the items of each list, in order |
| Pipeline.HitItemsSpec | src/app.py:211-222 | every kept hit whose projection has at least two fields yields the item `["01", " ".join(fields[:-1]), fields[-1]]` with the identifier and its observation, and every item comes from such a hit |
| Pipeline.ResultsAreHitItems | src/app.py:192-222 | while the counter stays below the cap, handling the first `n` hits appends exactly their items, in hit order |
| Pipeline.AssetItemsAppended | src/app.py:173-222 | when the counter is at least five below the cap, identifier `i` appends exactly the items of its first five hits, or nothing when it is empty or not found |
| Pipeline.ResolvedItemsWithoutCap | src/app.py:147-222 | with at most 10 identifiers, the items are exactly those of the kept hits with at least two projected fields, identifier by identifier and hit by hit |
| Pipeline.DepartmentWritesAppend | src/app.py:202-203 | counting department updates distributes over concatenation |
| Pipeline.WritesForCount | src/app.py:202-204 | one hit sends one department update exactly when both calls returned |
| Pipeline.ResultsCountDepartmentWrites | src/app.py:192-208 | while handling results the counter equals the number of department updates sent |
| Pipeline.UpdatesCountDepartmentWrites | src/app.py:170-225 | `total_updates` is the number of department updates sent by the request |
| Pipeline.FailureIsFinal | src/app.py:232-239 | once an editor call raises, later items change nothing |
| Pipeline.AppendToFirst | src/app.py:234-238 | two appends to the first table are one append of both rows |
| Pipeline.AssembleDocument | src/app.py:231-239 | the assembly loop appends the laid-out rows to the first table and stops at the first call that raises; with no table and some item it raises, and with no item nothing changes |
| Pipeline.LayoutFollowsRuns | src/app.py:231-239 | with three-field items and a table with columns, nothing raises, the rows are each item's data row followed by an `OBS:` row when the item starts a run of its identifier and has an observation, and `patrimonio_atual` ends as the last identifier |
| Pipeline.DataRowsAppend | src/app.py:232-234 | counting data rows distributes over concatenation |
| Pipeline.DataRowsStep | src/app.py:232-238 | a data row followed by at most one merged row adds one data row |
| Pipeline.OneDataRowPerItem | src/app.py:232-238 | every item yields exactly one data row, and the layout has at most two rows per item |
| Pipeline.RunsOfIdentifiers | src/app.py:235-239 | two consecutive items of one identifier share one `OBS:` row; an identifier that comes back after another gets its `OBS:` row again |
| Pipeline.ResolvedItemsLayOut | src/app.py:168-239 | the items of any resolution lay out without error on a table with columns, one data row each, by runs |
| Pipeline.ProcessRequest | src/app.py:86-239 | the sequence of steps in one request; see "What a request does" below |
| Cache.BelowIrreflexive | src/cache.py:52 | string order is irreflexive |
| Cache.BelowTransitive | src/cache.py:52 | string order is transitive |
| Cache.BelowTotal | src/cache.py:52 | distinct strings are ordered one way or the other |
| Cache.Insert | src/cache.py:52 | insertion keeps the entries and adds the new one |
| Cache.SortByName | src/cache.py:52 | `sorted(kwargs.items())` is a permutation of the keyword arguments |
| Cache.InsertSorted | src/cache.py:52 | inserting a new name into a strictly sorted list keeps it strictly sorted |
| Cache.SortByNameSorted | src/cache.py:52 | keyword arguments with distinct names come out strictly sorted by name |
| Cache.InTail | src/cache.py:52 | an entry other than the first lies in the tail |
| Cache.SameHead | src/cache.py:52 | two sorted orderings of the same entries start alike |
| Cache.SortedUnique | src/cache.py:52 | two strictly sorted orderings of the same entries are equal |
| Cache.KeywordParts | src/cache.py:52-53 | one part per keyword argument, so the keyword section of the key has exactly as many parts as there are keyword arguments |
| Cache.KeywordOrderIsIrrelevant | src/cache.py:43-56 | the key string of `_generate_key` (prefix, positional arguments in order, keyword arguments sorted by name, joined with `"\|"`) does not depend on the order in which the keyword arguments were passed |
| Cache.Read | src/cache.py:66-69 | `get` returns a value exactly when the key is present and `now < expires_at` |
| Cache.Purge | src/cache.py:66-71 | reading removes the key exactly when it is present and stale, and touches no other entry |
| Cache.Cleared | src/cache.py:116-123 | `clear(pattern)` keeps exactly the keys that do not contain the pattern as a literal substring; `clear()` with no or an empty pattern empties the store |
| Cache.SetThenGet | src/cache.py:66-89 | a value set at time `t` with effective TTL `ttl` is read back exactly while `now < t + ttl` |
| Cache.ZeroTtlIsDefault | src/cache.py:80 | a TTL of `None` or `0` means the default TTL |
| Cache.OtherKeysUnaffected | src/cache.py:66-106 | setting, purging or deleting one key leaves the reads of every other key unchanged |
| Cache.ReadIsIdempotent | src/cache.py:58-75 | a second read at the same time gives the same answer and changes nothing more |
| Cache.SheetPatternClearsNothing | src/cache.py:215-217 | when every key is a hex digest, `invalidate_sheet_cache` removes nothing from the memory store, because its pattern starts with `s` |
| Cache.CacheManager.constructor | src/cache.py:26-28 | a new manager holds the default TTL and an empty store |
| Cache.CacheManager.Get | src/cache.py:58-75 | returns the live value, if any, and removes the entry when it is stale |
| Cache.CacheManager.Set | src/cache.py:77-89 | stores the value until `now` plus the effective TTL and returns true |
| Cache.CacheManager.Delete | src/cache.py:94-106 | returns true exactly when the key was present, and removes that key only |
| Cache.CacheManager.Clear | src/cache.py:108-123 | removes the matching keys one by one (or everything) and returns true |
| Cache.CacheManager.Exists | src/cache.py:129-144 | true exactly when a live entry is present; a stale one is removed |
| Cache.InvalidateSheetCache | src/cache.py:215-217 | clears with the pattern `sheets_*<sheet id>*` |
| Cache.HitSkipsCall | src/cache.py:171-175 | a live value other than `None` is returned without calling the function |
| Cache.StoredNoneIsRecomputed | src/cache.py:171-184 | a stored `None` is never a hit: the function runs again |
| Cache.SecondCallHits | src/cache.py:171-184 | after a miss stores a value other than `None`, a second call before the TTL runs out returns it without a call |
| Cache.Cached | src/cache.py:163-185 | the wrapper returns the hit without calling the function, or calls it once, stores its result (after purging a stale entry) and returns it |

### What a request does

`Pipeline.ProcessRequest` (src/app.py:86-239) runs these steps in order:

1. Invalid form data yields all validation errors, and the template is left
   untouched.
2. Otherwise the user data is normalised. The phone goes through
   `formata_numero`, or is `""` when that gives `None`.
3. The template's markers are substituted with that data and the date.
4. More than 10 identifiers are refused with the `patrimonio` error. This
   happens after substitution and before any spreadsheet update.
5. Otherwise the outcome is the resolution of the identifiers together
   with the document assembly over its items. When the assembly raises,
   the resolution records the spreadsheet updates already sent. The
   handler turns `Completed(_, Fail(m))` into its generic error 500
   (`Erro interno do servidor: m`, src/app.py:320-322), which reports none
   of them.

## Left out

- **HTTP handling.** Flask routing, request and response objects, `jsonify`,
  `send_file`, and the temporary-file cleanup with its retries are left
  out. These are I/O. The model returns the `Response` value that the
  handler turns into JSON or a file.
- **Configuration checks.** `SHEET_ID` and `CREDENTIALS` are checked in
  `index()` (src/app.py:80-83, 143-144). Those checks read the environment.
  The model assumes both are set.
- **Template selection.** The template is chosen by file name
  (src/app.py:114-122), and a missing file raises. This is file-system
  I/O. The model starts from a loaded `DocumentEditor`.
- **Spreadsheet access.** The Google Sheets service, the `obter_metadados`
  fetch and `get_sheet_metadata` are left out. In the request, each
  identifier's search results and the outcome of each pair of updates are
  given by the `Spreadsheet` value. `SearchSheets` models the search itself
  over sheets given as rows.
- **`ResolveAssets`:** it does not tie `search(i)` to `buscar_palavra_em_abas`
  run over live sheets. The search result is an input of the request, and
  it always arrives.
- **Search failures.** An exception on the uncached search path aborts the
  whole request with an error, and is not modelled. The cached call is
  guarded by a `try`; its fallback (`SheetsHandler(SHEET_ID)` and
  `buscar_palavra_em_abas`, src/app.py:179-182) is not. The same holds for
  building the handler and fetching the sheet names before the loop
  (src/app.py:154-165). `search` is a total function, so the model covers
  only requests whose searches all return, and `ProcessRequest` never
  reports such an abort.
- **`altera_valor_planilha`:** it catches the errors of `execute()`. A
  "failed" update in the loop is therefore only an exception raised before
  that point, such as building the handler or loading the credentials.
  This is what `WriteOutcome` distinguishes.
- **Output and interactive code.** LibreOffice conversion, `salvar`, and
  the interactive prompts `pergunta_doc`, `pergunta_departamento`,
  `pedir_dados_usuario` and `exibir_resultados` are external processes,
  file I/O or console I/O.
- **Formatting in the document.** Fonts, sizes, alignment and the physical
  merging of cells are left out. A row is its cells' text; a merged row is
  one cell with its span.
- **Case mapping and regular expressions.**
  - `upper`, `lower` and `title` act on ASCII letters only. Python also
    maps other Unicode letters.
  - `\d` is taken as ASCII digits.
  - `\s` and `strip` use Python's `isspace` set.
  - The regular expressions of src/validation.py are written as explicit
    character predicates.
- **The Redis back end.** The Redis branches of `CacheManager`, `REDIS_URL`
  and `get_cache_stats` are left out. Only the memory back end is modelled.
- **MD5.** The digest of the key string is a function parameter
  (`GenerateKey`). `SheetPatternClearsNothing` takes "every stored key is a
  hex digest" as a precondition.
- **The global cache manager.** The module-level `cache_manager` is an
  explicit `CacheManager` object. The decorated `GoogleSheetsCache`,
  `TemplateCache` and `DocumentCache` helpers are not modelled separately;
  they are instances of `Cached`.
- **`Cached`:** positional and keyword arguments are modelled as strings
  already rendered with `str`, and the key is given directly. A custom
  `key_generator` and `_generate_key` both produce the key, and the wrapper
  behaves the same whichever produced it.
- **Cross-request races.** Races on the shared cache and on the
  spreadsheet are left out.
- **Supporting modules.** logger.py, config.py and exceptions.py are not
  part of this model. Errors are modelled as the `Response` and `Outcome`
  values that carry their messages.
- **The repeated phone test.** The second `len(digits) < 10` test in
  `validate_phone` (src/validation.py:108-113) can never fire.
  `ValidatePhone` keeps it, and its contract shows the result is as if the
  test were absent.
