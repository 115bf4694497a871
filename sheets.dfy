/**
 * The spreadsheet side of the application (`SheetsHandler` in src/utils.py):
 * projecting a found row onto the columns registered for its sheet, the
 * case-insensitive search across sheets, and the A1 address of a cell write.
 * The remote service itself is not modelled: a sheet is given as its rows, or
 * as a failure to load, and a write is recorded as the range and value sent.
 */
module Sheets {
  import opened Wrappers
  import opened Text

  /** One search hit: the sheet's name, the 1-based row number and the row's cells. */
  datatype SheetRow = SheetRow(sheet: string, row: nat, values: seq<string>)

  /** A sheet as the search reads it: its name and its rows, or `None` when reading it failed. */
  datatype SheetData = SheetData(name: string, rows: Option<seq<seq<string>>>)

  /**
   * One single-cell update sent to the spreadsheet: the cell, addressed by
   * sheet, column letter and 1-based row, and the value written into it.
   */
  datatype CellWrite = CellWrite(sheet: string, column: string, row: nat, value: string)

  // ---------------------------------------------------------------------------
  // filtrar_lista_por_aba
  // ---------------------------------------------------------------------------

  /** The row with every empty or whitespace-only cell removed and the rest stripped. */
  function CleanRow(values: seq<string>): (r: seq<string>)
  {
    if values == [] then []
    else (if IsBlank(values[0]) then [] else [Strip(values[0])]) + CleanRow(values[1..])
  }

  /** Cleaning works cell by cell: it distributes over concatenation. */
  lemma {:induction false} CleanRowAppend(a: seq<string>, b: seq<string>)
    ensures CleanRow(a + b) == CleanRow(a) + CleanRow(b)
  {
    if a != [] {
      assert (a + b)[0] == a[0] && (a + b)[1..] == a[1..] + b;
      CleanRowAppend(a[1..], b);
    } else {
      assert a + b == b;
    }
  }

  /** A non-empty string with no whitespace at either end. */
  predicate Trimmed(s: string)
  {
    s != [] && !IsSpace(s[0]) && !IsSpace(s[|s| - 1])
  }

  /** Every cell that survives cleaning is non-empty and carries no outer whitespace. */
  lemma {:induction false} CleanRowCellsAreTrimmed(values: seq<string>)
    ensures forall k :: 0 <= k < |CleanRow(values)| ==> Trimmed(CleanRow(values)[k])
  {
    if values != [] {
      CleanRowCellsAreTrimmed(values[1..]);
      var head := if IsBlank(values[0]) then [] else [Strip(values[0])];
      if !IsBlank(values[0]) {
        StripEmptyIffBlank(values[0]);
        StripHasNoOuterSpace(values[0]);
        assert Trimmed(head[0]);
      }
      var rest := CleanRow(values[1..]);
      assert CleanRow(values) == head + rest;
      forall k | 0 <= k < |head + rest| ensures Trimmed((head + rest)[k]) {
        if k < |head| {
          assert (head + rest)[k] == head[k];
        } else {
          assert (head + rest)[k] == rest[k - |head|];
        }
      }
    }
  }

  /** The column indices registered for each known sheet, by sheet name. */
  const RegisteredSheets: seq<(string, seq<nat>)> := [
    ("HEADSET", [2, 3, 4, 5]),
    ("DESKTOP'S", [3, 4, 5, 6, 7, 8, 9]),
    ("CELULARES-TABLETS", [3, 4, 5, 6]),
    ("MONITORES", [3, 4, 5, 6]),
    ("IMP-TRITURADORA", [3, 4, 5, 6]),
    ("NOTEBOOKS", [3, 4, 5, 6, 7, 8, 9]),
    ("OUTROS", [1, 4, 5, 6])]

  /** The indices registered for `sheet` in `table`; a sheet that is not listed has none. */
  function IndicesIn(table: seq<(string, seq<nat>)>, sheet: string): seq<nat>
  {
    if table == [] then []
    else if table[0].0 == sheet then table[0].1
    else IndicesIn(table[1..], sheet)
  }

  function SheetIndices(sheet: string): seq<nat>
  {
    IndicesIn(RegisteredSheets, sheet)
  }

  /** The indices of `indices` that address a cell of a row of length `n`, in order. */
  function IndicesBelow(indices: seq<nat>, n: nat): (r: seq<nat>)
    ensures |r| <= |indices|
    ensures forall k :: 0 <= k < |r| ==> r[k] < n
  {
    if indices == [] then []
    else (if indices[0] < n then [indices[0]] else []) + IndicesBelow(indices[1..], n)
  }

  /** `[cleaned[i] for i in indices if i < len(cleaned)]`. */
  function Project(cleaned: seq<string>, indices: seq<nat>): seq<string>
  {
    if indices == [] then []
    else (if indices[0] < |cleaned| then [cleaned[indices[0]]] else []) + Project(cleaned, indices[1..])
  }

  /** The projection picks `cleaned[i]` for exactly the indices below `|cleaned|`, in their order. */
  lemma {:induction false} ProjectPicksIndices(cleaned: seq<string>, indices: seq<nat>)
    ensures var below := IndicesBelow(indices, |cleaned|);
      |Project(cleaned, indices)| == |below|
      && forall k :: 0 <= k < |below| ==> Project(cleaned, indices)[k] == cleaned[below[k]]
  {
    if indices != [] {
      ProjectPicksIndices(cleaned, indices[1..]);
    }
  }

  /** `SheetsHandler.filtrar_lista_por_aba`. */
  function FilterBySheet(sheet: string, values: seq<string>): (r: seq<string>)
    ensures |r| <= |SheetIndices(sheet)|
    ensures SheetIndices(sheet) == [] ==> r == []
  {
    ProjectPicksIndices(CleanRow(values), SheetIndices(sheet));
    Project(CleanRow(values), SheetIndices(sheet))
  }

  /**
   * Each projected field is the cleaned cell at the matching registered index,
   * and each is a non-empty, stripped cell.
   */
  lemma FilterBySheetFields(sheet: string, values: seq<string>)
    ensures var cleaned := CleanRow(values);
      var below := IndicesBelow(SheetIndices(sheet), |cleaned|);
      var r := FilterBySheet(sheet, values);
      |r| == |below|
      && (forall k :: 0 <= k < |r| ==> r[k] == cleaned[below[k]])
      && (forall k :: 0 <= k < |r| ==> Trimmed(r[k]))
  {
    var cleaned := CleanRow(values);
    var indices := SheetIndices(sheet);
    var below := IndicesBelow(indices, |cleaned|);
    var r := Project(cleaned, indices);
    ProjectPicksIndices(cleaned, indices);
    CleanRowCellsAreTrimmed(values);
    forall k | 0 <= k < |r| ensures Trimmed(r[k]) {
      assert r[k] == cleaned[below[k]];
    }
  }

  // ---------------------------------------------------------------------------
  // buscar_palavra_em_abas
  // ---------------------------------------------------------------------------

  /** Some cell of the row contains the term, both lowercased. */
  predicate RowMatches(row: seq<string>, term: string)
  {
    exists k :: 0 <= k < |row| && Contains(Lower(row[k]), Lower(term))
  }

  /** The hits among the first `n` rows of one sheet, numbered from 1, at most one per row. */
  function SheetHits(name: string, rows: seq<seq<string>>, term: string, n: nat): seq<SheetRow>
    requires n <= |rows|
  {
    if n == 0 then []
    else
      var hit := if RowMatches(rows[n - 1], term) then [SheetRow(name, n, rows[n - 1])] else [];
      SheetHits(name, rows, term, n - 1) + hit
  }

  /** What one sheet contributes: its hits, or nothing when it failed to load. */
  function SheetResults(sheet: SheetData, term: string): seq<SheetRow>
  {
    match sheet.rows
    case None => []
    case Some(rows) => SheetHits(sheet.name, rows, term, |rows|)
  }

  /** The search results: sheet by sheet in the given order, rows in order within a sheet. */
  function Search(term: string, sheets: seq<SheetData>): seq<SheetRow>
  {
    if sheets == [] then [] else SheetResults(sheets[0], term) + Search(term, sheets[1..])
  }

  /** The scan of one row's cells, stopping at the first cell that contains the term. */
  method RowHasMatch(row: seq<string>, term: string) returns (found: bool)
    ensures found == RowMatches(row, term)
  {
    var c := 0;
    found := false;
    while c < |row| && !found
      invariant 0 <= c <= |row|
      invariant found ==> RowMatches(row, term)
      invariant !found ==> forall k :: 0 <= k < c ==> !Contains(Lower(row[k]), Lower(term))
    {
      if Contains(Lower(row[c]), Lower(term)) {
        found := true;
      }
      c := c + 1;
    }
  }

  /** The inner loop over one sheet's rows, numbering them from 1. */
  method ScanRows(name: string, rows: seq<seq<string>>, term: string) returns (hits: seq<SheetRow>)
    ensures hits == SheetHits(name, rows, term, |rows|)
  {
    hits := [];
    var r := 0;
    while r < |rows|
      invariant 0 <= r <= |rows|
      invariant hits == SheetHits(name, rows, term, r)
    {
      var found := RowHasMatch(rows[r], term);
      if found {
        hits := hits + [SheetRow(name, r + 1, rows[r])];
      }
      r := r + 1;
    }
  }

  /** `SheetsHandler.buscar_palavra_em_abas`, with each sheet's rows given instead of fetched. */
  method SearchSheets(term: string, sheets: seq<SheetData>) returns (results: seq<SheetRow>)
    ensures results == Search(term, sheets)
  {
    results := [];
    var s := 0;
    while s < |sheets|
      invariant 0 <= s <= |sheets|
      invariant results == Search(term, sheets[..s])
    {
      var sheet := sheets[s];
      var hits: seq<SheetRow> := [];
      match sheet.rows {
        case None =>
        case Some(rows) =>
          hits := ScanRows(sheet.name, rows, term);
      }
      assert hits == SheetResults(sheet, term);
      SearchAppend(term, sheets[..s], [sheet]);
      assert [sheet][1..] == [];
      assert sheets[..s + 1] == sheets[..s] + [sheet];
      results := results + hits;
      s := s + 1;
    }
    assert sheets[..|sheets|] == sheets;
  }

  /** Every hit of one sheet names that sheet and a matching row by its 1-based number. */
  lemma {:induction false} SheetHitsAreMatches(name: string, rows: seq<seq<string>>, term: string, n: nat)
    requires n <= |rows|
    ensures forall h :: h in SheetHits(name, rows, term, n) ==>
      h.sheet == name && 1 <= h.row <= n && h.values == rows[h.row - 1] && RowMatches(h.values, term)
  {
    if n > 0 {
      SheetHitsAreMatches(name, rows, term, n - 1);
    }
  }

  /** Row numbers strictly increase along the hits, so no row is reported twice. */
  predicate IncreasingRows(hits: seq<SheetRow>)
  {
    forall i, j :: 0 <= i < j < |hits| ==> hits[i].row < hits[j].row
  }

  /** Every matching row among the first `n` is reported, and each row at most once (row numbers increase). */
  lemma {:induction false} SheetHitsComplete(name: string, rows: seq<seq<string>>, term: string, n: nat)
    requires n <= |rows|
    ensures forall k :: 0 <= k < n && RowMatches(rows[k], term) ==>
      SheetRow(name, k + 1, rows[k]) in SheetHits(name, rows, term, n)
    ensures IncreasingRows(SheetHits(name, rows, term, n))
  {
    if n > 0 {
      SheetHitsComplete(name, rows, term, n - 1);
      SheetHitsAreMatches(name, rows, term, n - 1);
      var prev := SheetHits(name, rows, term, n - 1);
      var hits := SheetHits(name, rows, term, n);
      forall i, j | 0 <= i < j < |hits| ensures hits[i].row < hits[j].row {
        assert hits == prev + (if RowMatches(rows[n - 1], term) then [SheetRow(name, n, rows[n - 1])] else []);
        if j < |prev| {
          assert hits[i] == prev[i] && hits[j] == prev[j];
        } else {
          assert prev[i].row <= n - 1;
          assert hits[i] == prev[i] && prev[i] in prev;
          assert hits[j] == SheetRow(name, n, rows[n - 1]);
        }
      }
    }
  }

  /** Searching a concatenation of sheet lists concatenates the results. */
  lemma {:induction false} SearchAppend(term: string, a: seq<SheetData>, b: seq<SheetData>)
    ensures Search(term, a + b) == Search(term, a) + Search(term, b)
  {
    if a == [] {
      assert a + b == b;
    } else {
      assert (a + b)[0] == a[0] && (a + b)[1..] == a[1..] + b;
      SearchAppend(term, a[1..], b);
    }
  }

  /** A sheet that fails to load contributes nothing, and the sheets after it are still searched. */
  lemma FailedSheetIsSkipped(term: string, before: seq<SheetData>, failed: SheetData, after: seq<SheetData>)
    requires failed.rows == None
    ensures Search(term, before + [failed] + after) == Search(term, before) + Search(term, after)
  {
    SearchAppend(term, before, [failed] + after);
    assert before + [failed] + after == before + ([failed] + after);
    assert ([failed] + after)[1..] == after;
  }

  // ---------------------------------------------------------------------------
  // altera_valor_planilha: the A1 address of a single-cell update
  // ---------------------------------------------------------------------------

  /** `f"{aba}!{coluna}{linha}"`. */
  function A1Range(sheet: string, column: string, row: nat): string
  {
    sheet + "!" + column + NatToString(row)
  }

  /** The update `altera_proprietario` sends: the owner name into column `a`. */
  function OwnerWrite(sheet: string, row: nat, owner: string): CellWrite
  {
    CellWrite(sheet, "a", row, owner)
  }

  /** The update `altera_departamento` sends: the department into column `b`. */
  function DepartmentWrite(sheet: string, row: nat, department: string): CellWrite
  {
    CellWrite(sheet, "b", row, department)
  }

  /** Splits at the last occurrence of `sep`. */
  function SplitLast(s: string, sep: char): Option<(string, string)>
  {
    if s == [] then None
    else if s[|s| - 1] == sep then Some((s[..|s| - 1], []))
    else match SplitLast(s[..|s| - 1], sep)
      case None => None
      case Some(parts) => Some((parts.0, parts.1 + [s[|s| - 1]]))
  }

  /** Splits off the longest run of digits at the end. */
  function SplitTrailingDigits(s: string): (r: (string, string))
    ensures AllDigits(r.1)
  {
    if s != [] && IsDigit(s[|s| - 1]) then
      var parts := SplitTrailingDigits(s[..|s| - 1]);
      (parts.0, parts.1 + [s[|s| - 1]])
    else (s, [])
  }

  /** Reads an A1 range back into sheet, column letters and row number. */
  function ParseA1(range: string): Option<(string, string, nat)>
  {
    match SplitLast(range, '!')
    case None => None
    case Some(parts) =>
      var (column, digits) := SplitTrailingDigits(parts.1);
      if column == [] || digits == [] then None
      else Some((parts.0, column, ParseNat(digits)))
  }

  lemma {:induction false} SplitLastAt(a: string, sep: char, b: string)
    requires forall i :: 0 <= i < |b| ==> b[i] != sep
    ensures SplitLast(a + [sep] + b, sep) == Some((a, b))
    decreases |b|
  {
    var s := a + [sep] + b;
    if b == [] {
      assert s[..|s| - 1] == a;
    } else {
      assert s[..|s| - 1] == a + [sep] + b[..|b| - 1];
      SplitLastAt(a, sep, b[..|b| - 1]);
      assert b[..|b| - 1] + [b[|b| - 1]] == b;
    }
  }

  lemma {:induction false} SplitTrailingDigitsAt(p: string, d: string)
    requires AllDigits(d)
    requires p == [] || !IsDigit(p[|p| - 1])
    ensures SplitTrailingDigits(p + d) == (p, d)
    decreases |d|
  {
    var s := p + d;
    if d == [] {
      assert s == p;
    } else {
      assert s[..|s| - 1] == p + d[..|d| - 1];
      SplitTrailingDigitsAt(p, d[..|d| - 1]);
      assert d[..|d| - 1] + [d[|d| - 1]] == d;
    }
  }

  /**
   * The A1 range of a write names its target unambiguously: for a column made
   * of letters, the sheet, the column and the row can be read back, even when
   * the sheet name itself contains `!` or digits.
   */
  lemma A1RangeRoundTrip(sheet: string, column: string, row: nat)
    requires column != [] && forall i :: 0 <= i < |column| ==> IsLowerAscii(column[i]) || IsUpperAscii(column[i])
    ensures ParseA1(A1Range(sheet, column, row)) == Some((sheet, column, row))
  {
    var digits := NatToString(row);
    assert A1Range(sheet, column, row) == sheet + ['!'] + (column + digits);
    SplitLastAt(sheet, '!', column + digits);
    SplitTrailingDigitsAt(column, digits);
    ParseNatToString(row);
  }
}
