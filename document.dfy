/**
 * The document side of the application (`DocumentEditor` in src/utils.py):
 * the phone display mask, the dated place line, run-by-run marker
 * substitution, and appending data rows and merged observation rows to the
 * first table of the loaded template.
 *
 * A document is modelled by its text structure only: paragraphs made of runs,
 * tables made of rows of cells, each cell holding paragraphs. Fonts, sizes and
 * alignment are not modelled.
 */
module Documents {
  import opened Wrappers
  import opened Text

  /** A paragraph, as the texts of its runs. */
  type Paragraph = seq<string>

  /** A table cell, as its paragraphs. */
  type Cell = seq<Paragraph>

  /**
   * A table row: ordinary cells, one per grid column, or a single cell merged
   * across `span` grid columns.
   */
  datatype Row = Plain(cells: seq<Cell>) | Merged(span: nat, cell: Cell)

  datatype Table = Table(columns: nat, rows: seq<Row>)

  /** A calendar date, standing in for `datetime.now()`. */
  datatype Date = Date(day: nat, month: nat, year: nat)

  const NoTablesMessage: string := "Documento não contém tabelas"
  const ArityMessage: string := "Dados devem conter [quantidade, descrição, ID]"
  /** The `IndexError` of `nova_linha.cells[0]`: python-docx returns a row's cells as a tuple. */
  const IndexErrorMessage: string := "tuple index out of range"

  // ---------------------------------------------------------------------------
  // formata_numero
  // ---------------------------------------------------------------------------

  /** `DocumentEditor.formata_numero`: the digits masked as `(DD) DDDDD-DDDD` or `(DD) DDDD-DDDD`. */
  function FormatPhone(numero: string): Option<string>
  {
    var d := OnlyDigits(numero);
    if |d| == 11 then Some("(" + d[..2] + ") " + d[2..7] + "-" + d[7..])
    else if |d| == 10 then Some("(" + d[..2] + ") " + d[2..6] + "-" + d[6..])
    else None
  }

  lemma OnlyDigitsOfPunctuation(p: string)
    requires p == "(" || p == ") " || p == "-"
    ensures OnlyDigits(p) == []
  {
    assert p[1..] == [] || (p[1..] == " " && p[1..][1..] == []);
  }

  /** Regrouping a six-part concatenation. */
  lemma Regroup(p: string, a: string, q: string, b: string, r: string, c: string)
    ensures p + (a + (q + (b + (r + c)))) == p + a + q + b + r + c
  {
  }

  lemma Regroup3(a: string, b: string, c: string)
    ensures a + (b + c) == a + b + c
  {
  }

  /** The digits after a digit-free separator and a group of digits. */
  lemma OnlyDigitsOfGroup(p: string, a: string, rest: string)
    requires OnlyDigits(p) == [] && OnlyDigits(a) == a
    ensures OnlyDigits(p + (a + rest)) == a + OnlyDigits(rest)
  {
    OnlyDigitsAppend(p, a + rest);
    OnlyDigitsAppend(a, rest);
  }

  /** The digits of three digit groups separated by digit-free separators. */
  lemma OnlyDigitsOfGroups(p: string, a: string, q: string, b: string, r: string, c: string)
    requires OnlyDigits(p) == [] && OnlyDigits(q) == [] && OnlyDigits(r) == []
    requires OnlyDigits(a) == a && OnlyDigits(b) == b && OnlyDigits(c) == c
    ensures OnlyDigits(p + a + q + b + r + c) == a + b + c
  {
    OnlyDigitsOfGroup(r, c, []);
    assert c + [] == c;
    OnlyDigitsOfGroup(q, b, r + (c + []));
    OnlyDigitsOfGroup(p, a, q + (b + (r + (c + []))));
    Regroup(p, a, q, b, r, c);
    Regroup3(a, b, c);
  }

  lemma OnlyDigitsOfMask(a: string, b: string, c: string)
    requires AllDigits(a) && AllDigits(b) && AllDigits(c)
    ensures OnlyDigits("(" + a + ") " + b + "-" + c) == a + b + c
  {
    OnlyDigitsOfDigits(a);
    OnlyDigitsOfDigits(b);
    OnlyDigitsOfDigits(c);
    OnlyDigitsOfPunctuation("(");
    OnlyDigitsOfPunctuation(") ");
    OnlyDigitsOfPunctuation("-");
    OnlyDigitsOfGroups("(", a, ") ", b, "-", c);
  }

  /**
   * A number is masked exactly when it has 10 or 11 digits; the mask puts the
   * two-digit area code in parentheses and a dash before the last four digits,
   * and dropping the mask's punctuation gives back the digits.
   */
  lemma FormatPhoneShape(numero: string)
    ensures var d := OnlyDigits(numero);
      (FormatPhone(numero).Some? <==> |d| == 10 || |d| == 11)
      && (FormatPhone(numero).Some? ==>
            var r := FormatPhone(numero).value;
            |r| == |d| + 4 && r[0] == '(' && r[3] == ')' && r[4] == ' ' && r[|r| - 5] == '-'
            && r[1..3] == d[..2] && r[|r| - 4..] == d[|d| - 4..]
            && OnlyDigits(r) == d)
  {
    var d := OnlyDigits(numero);
    if |d| == 11 {
      OnlyDigitsOfMask(d[..2], d[2..7], d[7..]);
      assert d[..2] + d[2..7] + d[7..] == d;
    } else if |d| == 10 {
      OnlyDigitsOfMask(d[..2], d[2..6], d[6..]);
      assert d[..2] + d[2..6] + d[6..] == d;
    }
  }

  // ---------------------------------------------------------------------------
  // data_formatada
  // ---------------------------------------------------------------------------

  function MonthName(m: nat): string
    requires 1 <= m <= 12
  {
    match m
    case 1 => "Janeiro" case 2 => "Fevereiro" case 3 => "Março" case 4 => "Abril"
    case 5 => "Maio" case 6 => "Junho" case 7 => "Julho" case 8 => "Agosto"
    case 9 => "Setembro" case 10 => "Outubro" case 11 => "Novembro" case _ => "Dezembro"
  }

  /** The month whose name is `name`, or 0 for no month. */
  function MonthNumber(name: string): nat
  {
    if name == "Janeiro" then 1 else if name == "Fevereiro" then 2
    else if name == "Março" then 3 else if name == "Abril" then 4
    else if name == "Maio" then 5 else if name == "Junho" then 6
    else if name == "Julho" then 7 else if name == "Agosto" then 8
    else if name == "Setembro" then 9 else if name == "Outubro" then 10
    else if name == "Novembro" then 11 else if name == "Dezembro" then 12
    else 0
  }

  const DatePrefix: string := "Goiânia, "
  const DateJoin: string := " de "

  /** `DocumentEditor.data_formatada`, with the date given. */
  function FormattedDate(today: Date): string
    requires 1 <= today.month <= 12
  {
    DatePrefix + NatToString(today.day) + DateJoin + MonthName(today.month) + DateJoin + NatToString(today.year)
  }

  /** Reads a dated place line back into its date. */
  function ParseDate(s: string): Option<Date>
  {
    if !StartsWith(s, DatePrefix) then None
    else
      var (day, rest) := SplitLeadingDigits(s[|DatePrefix|..]);
      if day == [] || !StartsWith(rest, DateJoin) then None
      else
        var (name, tail) := SplitBefore(rest[|DateJoin|..], ' ');
        var month := MonthNumber(name);
        if month == 0 || !StartsWith(tail, DateJoin) then None
        else
          var year := tail[|DateJoin|..];
          if year == [] || !AllDigits(year) then None
          else Some(Date(ParseNat(day), month, ParseNat(year)))
  }

  /** Month names are single words, and each names its own month. */
  lemma MonthNameFacts(m: nat)
    requires 1 <= m <= 12
    ensures forall i :: 0 <= i < |MonthName(m)| ==> MonthName(m)[i] != ' '
    ensures MonthNumber(MonthName(m)) == m
  {
  }

  lemma ConcatParts(p: string, x: string)
    ensures (p + x)[..|p|] == p && (p + x)[|p|..] == x
  {
  }

  /** Reading a line made of a day, a month name without spaces and a year. */
  lemma ParseDateOf(day: string, name: string, year: string)
    requires day != [] && AllDigits(day) && year != [] && AllDigits(year)
    requires forall i :: 0 <= i < |name| ==> name[i] != ' '
    requires MonthNumber(name) != 0
    ensures ParseDate(DatePrefix + day + DateJoin + name + DateJoin + year)
         == Some(Date(ParseNat(day), MonthNumber(name), ParseNat(year)))
  {
    var tail := DateJoin + year;
    var rest := DateJoin + (name + tail);
    Regroup(DatePrefix, day, DateJoin, name, DateJoin, year);
    ConcatParts(DatePrefix, day + rest);
    SplitLeadingDigitsAt(day, rest);
    ConcatParts(DateJoin, name + tail);
    SplitBeforeAt(name, ' ', tail);
    ConcatParts(DateJoin, year);
  }

  /** The dated line names its date unambiguously: reading it back gives the date. */
  lemma FormattedDateRoundTrip(today: Date)
    requires 1 <= today.month <= 12
    ensures ParseDate(FormattedDate(today)) == Some(today)
  {
    MonthNameFacts(today.month);
    ParseDateOf(NatToString(today.day), MonthName(today.month), NatToString(today.year));
    ParseNatToString(today.day);
    ParseNatToString(today.year);
  }

  // ---------------------------------------------------------------------------
  // substituir_texto
  // ---------------------------------------------------------------------------

  /** The value stored under `key` in an insertion-ordered dictionary, if any. */
  function Lookup(d: seq<(string, string)>, key: string): Option<string>
  {
    if d == [] then None else if d[0].0 == key then Some(d[0].1) else Lookup(d[1..], key)
  }

  function Keys(d: seq<(string, string)>): seq<string>
  {
    if d == [] then [] else [d[0].0] + Keys(d[1..])
  }

  /** `d[key] = value` on an insertion-ordered dictionary: updated in place, or appended when new. */
  function DictPut(d: seq<(string, string)>, key: string, value: string): seq<(string, string)>
  {
    if d == [] then [(key, value)]
    else if d[0].0 == key then [(key, value)] + d[1..]
    else [d[0]] + DictPut(d[1..], key, value)
  }

  /** After `d[key] = value` the key maps to the value and every other key keeps its value. */
  lemma {:induction false} DictPutLookup(d: seq<(string, string)>, key: string, value: string)
    ensures Lookup(DictPut(d, key, value), key) == Some(value)
    ensures forall k :: k != key ==> Lookup(DictPut(d, key, value), k) == Lookup(d, k)
  {
    if d != [] {
      DictPutLookup(d[1..], key, value);
    }
  }

  /** `d[key] = value` keeps the key order; a new key goes last. */
  lemma {:induction false} DictPutKeys(d: seq<(string, string)>, key: string, value: string)
    ensures Keys(DictPut(d, key, value)) == if key in Keys(d) then Keys(d) else Keys(d) + [key]
  {
    if d != [] {
      DictPutKeys(d[1..], key, value);
      if d[0].0 != key {
        assert Keys(d) == [d[0].0] + Keys(d[1..]);
      }
    }
  }

  /** The text of one run after every marker, in dictionary order, has been replaced in it. */
  function ApplySubs(text: string, subs: seq<(string, string)>): string
    decreases |subs|
  {
    if subs == [] then text
    else
      var t := if Contains(text, subs[0].0) then ReplaceAll(text, subs[0].0, subs[0].1) else text;
      ApplySubs(t, subs[1..])
  }

  /** A run that contains none of the markers is left as it is. */
  lemma {:induction false} ApplySubsWithoutMarkers(text: string, subs: seq<(string, string)>)
    requires forall i :: 0 <= i < |subs| ==> !Contains(text, subs[i].0)
    ensures ApplySubs(text, subs) == text
  {
    if subs != [] {
      ApplySubsWithoutMarkers(text, subs[1..]);
    }
  }

  /** Applying a dictionary is applying its first entries, then the others to the result. */
  lemma {:induction false} ApplySubsAppend(text: string, a: seq<(string, string)>, b: seq<(string, string)>)
    ensures ApplySubs(text, a + b) == ApplySubs(ApplySubs(text, a), b)
    decreases |a|
  {
    if a == [] {
      assert a + b == b;
    } else {
      var t := if Contains(text, a[0].0) then ReplaceAll(text, a[0].0, a[0].1) else text;
      assert (a + b)[0] == a[0] && (a + b)[1..] == a[1..] + b;
      ApplySubsAppend(t, a[1..], b);
    }
  }

  /**
   * Markers are applied one after another to the run's current text, so a
   * value that holds a later marker is substituted again: a company written
   * `data sa` in a run holding `empresa` gets the date spliced into it. Had
   * `data` come first, the company would stay as written.
   */
  lemma ValueHoldingLaterMarker(date: string)
    ensures ApplySubs("empresa", [("empresa", "data sa"), ("data", date)]) == date + " sa"
    ensures ApplySubs("empresa", [("data", date), ("empresa", "data sa")]) == "data sa"
  {
    var company, today := ("empresa", "data sa"), ("data", date);
    assert StartsWith("empresa", "empresa") && Contains("empresa", "empresa");
    assert ReplaceAll("empresa", "empresa", "data sa") == "data sa";
    assert StartsWith("data sa", "data") && Contains("data sa", "data");
    ForeignCharNotContained(" sa", "data", 0);
    ReplaceAbsentIsIdentity(" sa", "data", date);
    assert ReplaceAll("data sa", "data", date) == date + " sa";
    ForeignCharNotContained("empresa", "data", 0);
    assert ApplySubs("data sa", [today]) == ApplySubs(date + " sa", []);
    assert ApplySubs("empresa", [company, today]) == ApplySubs("data sa", [company, today][1..]);
    assert [company, today][1..] == [today];
    assert ApplySubs("data sa", []) == "data sa";
    assert ApplySubs("empresa", [company]) == ApplySubs("data sa", []);
    assert ApplySubs("empresa", [today, company]) == ApplySubs("empresa", [today, company][1..]);
    assert [today, company][1..] == [company];
  }

  function SubParagraph(p: Paragraph, subs: seq<(string, string)>): Paragraph
  {
    seq(|p|, i requires 0 <= i < |p| => ApplySubs(p[i], subs))
  }

  function SubCell(c: Cell, subs: seq<(string, string)>): Cell
  {
    seq(|c|, i requires 0 <= i < |c| => SubParagraph(c[i], subs))
  }

  /** A cell substituted `n` times over, as happens to a merged cell visited once per grid column. */
  function SubCellTimes(c: Cell, subs: seq<(string, string)>, n: nat): Cell
    decreases n
  {
    if n == 0 then c else SubCellTimes(SubCell(c, subs), subs, n - 1)
  }

  function SubRow(row: Row, subs: seq<(string, string)>): Row
  {
    match row
    case Plain(cells) => Plain(seq(|cells|, i requires 0 <= i < |cells| => SubCell(cells[i], subs)))
    case Merged(span, cell) => Merged(span, SubCellTimes(cell, subs, span))
  }

  function SubTable(t: Table, subs: seq<(string, string)>): Table
  {
    Table(t.columns, seq(|t.rows|, i requires 0 <= i < |t.rows| => SubRow(t.rows[i], subs)))
  }

  function SubParagraphs(ps: seq<Paragraph>, subs: seq<(string, string)>): seq<Paragraph>
  {
    seq(|ps|, i requires 0 <= i < |ps| => SubParagraph(ps[i], subs))
  }

  function SubTables(ts: seq<Table>, subs: seq<(string, string)>): seq<Table>
  {
    seq(|ts|, i requires 0 <= i < |ts| => SubTable(ts[i], subs))
  }

  /**
   * Substitution is run-scoped: a marker split across two runs is not
   * replaced, while the same marker inside one run is.
   */
  lemma SplitMarkerIsNotReplaced()
    ensures SubParagraph(["no", "me"], [("nome", "ANA")]) == ["no", "me"]
    ensures SubParagraph(["nome"], [("nome", "ANA")]) == ["ANA"]
  {
    assert !Contains("no", "nome") by {
      assert !StartsWith("no", "nome");
      assert "no"[1..] == "o" && !StartsWith("o", "nome");
      assert "o"[1..] == [] && !StartsWith([], "nome");
    }
    assert !Contains("me", "nome") by {
      assert !StartsWith("me", "nome");
      assert "me"[1..] == "e" && !StartsWith("e", "nome");
      assert "e"[1..] == [] && !StartsWith([], "nome");
    }
    assert StartsWith("nome", "nome");
    assert "nome"[4..] == [];
    assert ReplaceAll("nome", "nome", "ANA") == "ANA" + ReplaceAll([], "nome", "ANA");
    assert ReplaceAll([], "nome", "ANA") == [];
    assert ApplySubs("nome", [("nome", "ANA")]) == ApplySubs("ANA", []);
  }

  /** Replaces every marker in every run of one paragraph (the two innermost loops). */
  method ReplaceInParagraph(p: Paragraph, subs: seq<(string, string)>) returns (q: Paragraph)
    ensures q == SubParagraph(p, subs)
  {
    q := p;
    var r := 0;
    while r < |q|
      invariant 0 <= r <= |q| == |p|
      invariant forall i :: 0 <= i < r ==> q[i] == ApplySubs(p[i], subs)
      invariant forall i :: r <= i < |q| ==> q[i] == p[i]
    {
      var text := q[r];
      var m := 0;
      while m < |subs|
        invariant 0 <= m <= |subs|
        invariant ApplySubs(text, subs[m..]) == ApplySubs(p[r], subs)
      {
        assert subs[m..][1..] == subs[m + 1..];
        var (marker, value) := subs[m];
        if Contains(text, marker) {
          text := ReplaceAll(text, marker, value);
        }
        m := m + 1;
      }
      q := q[r := text];
      r := r + 1;
    }
  }

  method ReplaceInCell(c: Cell, subs: seq<(string, string)>) returns (d: Cell)
    ensures d == SubCell(c, subs)
  {
    d := c;
    var k := 0;
    while k < |d|
      invariant 0 <= k <= |d| == |c|
      invariant forall i :: 0 <= i < k ==> d[i] == SubParagraph(c[i], subs)
      invariant forall i :: k <= i < |d| ==> d[i] == c[i]
    {
      var q := ReplaceInParagraph(d[k], subs);
      d := d[k := q];
      k := k + 1;
    }
  }

  /** Visits a row's cells one per grid column, so a merged cell is visited `span` times. */
  method ReplaceInRow(row: Row, subs: seq<(string, string)>) returns (out: Row)
    ensures out == SubRow(row, subs)
  {
    match row {
      case Plain(cells) =>
        var done := cells;
        var k := 0;
        while k < |done|
          invariant 0 <= k <= |done| == |cells|
          invariant forall i :: 0 <= i < k ==> done[i] == SubCell(cells[i], subs)
          invariant forall i :: k <= i < |done| ==> done[i] == cells[i]
        {
          var d := ReplaceInCell(done[k], subs);
          done := done[k := d];
          k := k + 1;
        }
        out := Plain(done);
      case Merged(span, cell) =>
        var c := cell;
        var k := 0;
        while k < span
          invariant 0 <= k <= span
          invariant SubCellTimes(c, subs, span - k) == SubCellTimes(cell, subs, span)
        {
          c := ReplaceInCell(c, subs);
          k := k + 1;
        }
        out := Merged(span, c);
    }
  }

  method ReplaceInTable(t: Table, subs: seq<(string, string)>) returns (u: Table)
    ensures u == SubTable(t, subs)
  {
    var rows := t.rows;
    var k := 0;
    while k < |rows|
      invariant 0 <= k <= |rows| == |t.rows|
      invariant forall i :: 0 <= i < k ==> rows[i] == SubRow(t.rows[i], subs)
      invariant forall i :: k <= i < |rows| ==> rows[i] == t.rows[i]
    {
      var row := ReplaceInRow(rows[k], subs);
      rows := rows[k := row];
      k := k + 1;
    }
    u := Table(t.columns, rows);
  }

  // ---------------------------------------------------------------------------
  // adicionar_linha_tabela / adicionar_linha_mesclada
  // ---------------------------------------------------------------------------

  /** A freshly added cell: one empty paragraph. */
  const EmptyCell: Cell := [[]]

  /** The row `add_row()` appends: one empty cell per column. */
  function EmptyRow(columns: nat): Row
  {
    Plain(seq(columns, _ => EmptyCell))
  }

  /** A new row with cell `k` set to `values[k]` for every `k` below both lengths. */
  function FilledRow(columns: nat, values: seq<string>): Row
  {
    Plain(seq(columns, k requires 0 <= k < columns => if k < |values| then [[values[k]]] else EmptyCell))
  }

  /** A new row whose cells are merged into one holding `text`. */
  function MergedRow(columns: nat, text: string): Row
  {
    Merged(columns, [[text]])
  }

  /** A data row's cells hold exactly the given values, column by column, up to the column count. */
  lemma FilledRowCells(columns: nat, values: seq<string>)
    ensures |FilledRow(columns, values).cells| == columns
    ensures forall k :: 0 <= k < columns && k < |values| ==> FilledRow(columns, values).cells[k] == [[values[k]]]
    ensures forall k :: |values| <= k < columns ==> FilledRow(columns, values).cells[k] == EmptyCell
  {
  }

  /** The loaded template, as its paragraphs and its tables. */
  class DocumentEditor {
    var paragraphs: seq<Paragraph>
    var tables: seq<Table>

    constructor (paragraphs: seq<Paragraph>, tables: seq<Table>)
      ensures this.paragraphs == paragraphs && this.tables == tables
    {
      this.paragraphs := paragraphs;
      this.tables := tables;
    }

    /**
     * `substituir_texto`: adds the `"data"` entry to the caller's dictionary
     * when asked (returned as `used`), then replaces markers run by run in the
     * body paragraphs and in every table cell.
     */
    method SubstituteText(subs: seq<(string, string)>, includeDate: bool, today: Date)
      returns (used: seq<(string, string)>)
      requires 1 <= today.month <= 12
      modifies this
      ensures used == if includeDate then DictPut(subs, "data", FormattedDate(today)) else subs
      ensures paragraphs == SubParagraphs(old(paragraphs), used)
      ensures tables == SubTables(old(tables), used)
    {
      used := subs;
      if includeDate {
        used := DictPut(used, "data", FormattedDate(today));
      }
      var k := 0;
      while k < |paragraphs|
        invariant 0 <= k <= |paragraphs| == |old(paragraphs)|
        invariant forall i :: 0 <= i < k ==> paragraphs[i] == SubParagraph(old(paragraphs)[i], used)
        invariant forall i :: k <= i < |paragraphs| ==> paragraphs[i] == old(paragraphs)[i]
        invariant tables == old(tables)
      {
        var q := ReplaceInParagraph(paragraphs[k], used);
        paragraphs := paragraphs[k := q];
        k := k + 1;
      }
      k := 0;
      while k < |tables|
        invariant 0 <= k <= |tables| == |old(tables)|
        invariant forall i :: 0 <= i < k ==> tables[i] == SubTable(old(tables)[i], used)
        invariant forall i :: k <= i < |tables| ==> tables[i] == old(tables)[i]
        invariant paragraphs == SubParagraphs(old(paragraphs), used)
      {
        var u := ReplaceInTable(tables[k], used);
        tables := tables[k := u];
        k := k + 1;
      }
    }

    /**
     * `adicionar_linha_tabela` on the first table: fails when there is no
     * table; otherwise appends a row first and only then rejects values that
     * are not exactly three, so a rejected call still leaves an empty row.
     */
    method AddTableRow(values: seq<string>) returns (outcome: Outcome<string>)
      modifies this
      ensures paragraphs == old(paragraphs)
      ensures old(tables) == [] ==> outcome == Fail(NoTablesMessage) && tables == old(tables)
      ensures old(tables) != [] ==>
        var t := old(tables)[0];
        && outcome == (if |values| == 3 then Pass else Fail(ArityMessage))
        && tables == old(tables)[0 := Table(t.columns, t.rows + [if |values| == 3 then FilledRow(t.columns, values) else EmptyRow(t.columns)])]
    {
      if tables == [] {
        return Fail(NoTablesMessage);
      }
      var t := tables[0];
      var blank := EmptyRow(t.columns);
      tables := tables[0 := Table(t.columns, t.rows + [blank])];
      if |values| != 3 {
        return Fail(ArityMessage);
      }
      var cells := blank.cells;
      var k := 0;
      while k < |values|
        invariant 0 <= k <= |values| && |cells| == t.columns
        invariant forall j :: 0 <= j < t.columns ==> cells[j] == if j < k then [[values[j]]] else EmptyCell
      {
        if k < |cells| {
          cells := cells[k := [[values[k]]]];
        }
        k := k + 1;
      }
      assert cells == FilledRow(t.columns, values).cells;
      tables := tables[0 := Table(t.columns, t.rows + [Plain(cells)])];
      outcome := Pass;
    }

    /**
     * `adicionar_linha_mesclada` on the first table: appends one row whose
     * cells are merged into one holding `text`. A table without columns gets
     * an empty row and the call fails on `cells[0]`.
     */
    method AddMergedRow(text: string) returns (outcome: Outcome<string>)
      modifies this
      ensures paragraphs == old(paragraphs)
      ensures old(tables) == [] ==> outcome == Fail(NoTablesMessage) && tables == old(tables)
      ensures old(tables) != [] ==>
        var t := old(tables)[0];
        && outcome == (if t.columns == 0 then Fail(IndexErrorMessage) else Pass)
        && tables == old(tables)[0 := Table(t.columns, t.rows + [if t.columns == 0 then EmptyRow(0) else MergedRow(t.columns, text)])]
    {
      if tables == [] {
        return Fail(NoTablesMessage);
      }
      var t := tables[0];
      if t.columns == 0 {
        tables := tables[0 := Table(0, t.rows + [EmptyRow(0)])];
        return Fail(IndexErrorMessage);
      }
      tables := tables[0 := Table(t.columns, t.rows + [MergedRow(t.columns, text)])];
      outcome := Pass;
    }
  }
}
