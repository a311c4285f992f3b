/**
 * The CSV import dialog: the file text is cut into a header row and data
 * rows, headers are mapped to the four record fields automatically, the
 * user edits that mapping one column at a time, and the rows with a negative
 * amount become expense records.
 *
 * A mapping entry is the column index as text, or `""` for none; here it is
 * `Some(index)` or `None`.
 */
module CsvImport {
  import opened Options
  import opened Text
  import opened Seqs
  import opened JsNumber
  import opened CivilDate
  import opened Entities

  // ---------------------------------------------------------------------
  // Tokenising the file
  // ---------------------------------------------------------------------

  /** `s.replace(/^"|"$/g, "")`: a leading and a trailing double quote are dropped. */
  function StripQuotes(s: string): string
  {
    var t := if s != [] && s[0] == '"' then s[1..] else s;
    if t != [] && t[|t| - 1] == '"' then t[..|t| - 1] else t
  }

  /** At most one quote goes at each end and nothing else changes; a quoted text loses exactly its two quotes. */
  lemma StripQuotesShape(s: string, c: string)
    ensures var r := StripQuotes(s);
      s == r || s == "\"" + r || s == r + "\"" || s == "\"" + r + "\""
    ensures s != [] && s[0] != '"' && s[|s| - 1] != '"' ==> StripQuotes(s) == s
    ensures StripQuotes("\"" + c + "\"") == c
  {
    var t := if s != [] && s[0] == '"' then s[1..] else s;
    assert s == t || s == "\"" + t;
    if t != [] && t[|t| - 1] == '"' {
      assert t == t[..|t| - 1] + "\"";
    }
    var q := "\"" + c + "\"";
    assert q[1..] == c + "\"";
  }

  /** One cell: `cell.trim()` with its end quotes removed. */
  function Cell(raw: string): string
  {
    StripQuotes(Trim(raw))
  }

  /** The separator of one line: `;` when the line has one, else `,`. */
  function Separator(line: string): char
  {
    if ';' in line then ';' else ','
  }

  /** The cells of one line. */
  function Cells(line: string): seq<string>
  {
    var parts := Split(line, Separator(line));
    seq(|parts|, k requires 0 <= k < |parts| => Cell(parts[k]))
  }

  /** A cell that the tokeniser leaves as it is: no separator, no white space or quote at either end. */
  predicate PlainCell(c: string)
  {
    ';' !in c && ',' !in c && '\n' !in c && IsTrimmed(c) && (c != [] ==> c[0] != '"' && c[|c| - 1] != '"')
  }

  /** Plain cells joined with either separator are read back as the same cells. */
  lemma CellsOfJoin(cells: seq<string>, sep: char)
    requires |cells| >= 1 && (sep == ';' || sep == ',')
    requires forall k :: 0 <= k < |cells| ==> PlainCell(cells[k])
    ensures Cells(Join(cells, sep)) == cells
  {
    var line := Join(cells, sep);
    if |cells| == 1 {
      assert line == cells[0] == Join(cells, ',');
      SplitJoin(cells, ',');
    } else {
      if sep == ';' {
        JoinHasSeparator(cells, sep);
      } else {
        JoinAvoids(cells, sep, ';');
      }
      assert Separator(line) == sep;
      SplitJoin(cells, sep);
    }
    forall k | 0 <= k < |cells|
      ensures Cell(cells[k]) == cells[k]
    {
      TrimOfTrimmed(cells[k]);
    }
  }

  /** The lines of a file holding `table`, one row per line, cells joined by `sep`. */
  function CsvLines(table: seq<seq<string>>, sep: char): (lines: seq<string>)
    ensures |lines| == |table|
  {
    seq(|table|, k requires 0 <= k < |table| => Join(table[k], sep))
  }

  /** A row that is written as a line that is not blank and read back as written: plain cells, not one empty cell alone. */
  predicate PlainRow(row: seq<string>)
  {
    |row| >= 1 && (|row| == 1 ==> row[0] != []) && forall k :: 0 <= k < |row| ==> PlainCell(row[k])
  }

  /** A line that `trim()` does not leave empty. */
  predicate HasContent(line: string)
  {
    Trim(line) != []
  }

  /** `text.split("\n").filter(line => line.trim())`: the lines that are not blank, untrimmed. */
  function NonBlankLines(text: string): seq<string>
  {
    Filter(Split(text, '\n'), HasContent)
  }

  /** The header row and the data rows of the file, or `None` when it has no non-blank line. */
  function ParseCsv(text: string): Option<(seq<string>, seq<seq<string>>)>
  {
    var lines := NonBlankLines(text);
    if lines == [] then None
    else
      var rows := seq(|lines|, k requires 0 <= k < |lines| => Cells(lines[k]));
      Some((rows[0], rows[1..]))
  }

  /** Every line is blank. */
  predicate AllBlank(lines: seq<string>)
  {
    forall k :: 0 <= k < |lines| ==> !HasContent(lines[k])
  }

  /** The file is refused exactly when all its lines are blank. */
  lemma ParseCsvRefuses(text: string)
    ensures ParseCsv(text).None? <==> AllBlank(Split(text, '\n'))
  {
    var pieces := Split(text, '\n');
    var lines := Filter(pieces, HasContent);
    assert NonBlankLines(text) == lines;
    if lines != [] {
      assert lines[0] in pieces && HasContent(lines[0]);
    }
  }

  /** A plain row joined by either separator is one non-blank line that reads back as the row. */
  lemma LineOfPlainRow(row: seq<string>, sep: char)
    requires sep == ';' || sep == ','
    requires PlainRow(row)
    ensures '\n' !in Join(row, sep) && HasContent(Join(row, sep)) && Cells(Join(row, sep)) == row
  {
    var line := Join(row, sep);
    JoinAvoids(row, sep, '\n');
    CellsOfJoin(row, sep);
    if |row| == 1 {
      TrimOfTrimmed(row[0]);
    } else {
      JoinHasSeparator(row, sep);
      var i :| 0 <= i < |line| && line[i] == sep;
      TrimNonSpace(line, i);
    }
  }

  /** Lines that are not blank and hold no line break, joined by line breaks, are all found again. */
  lemma NonBlankLinesOfJoin(lines: seq<string>)
    requires |lines| >= 1
    requires forall k :: 0 <= k < |lines| ==> '\n' !in lines[k] && HasContent(lines[k])
    ensures NonBlankLines(Join(lines, '\n')) == lines
  {
    SplitJoin(lines, '\n');
    FilterAll(lines, HasContent);
  }

  /** A file written as a header line and data lines of plain rows is read back as that header and those rows. */
  lemma ParseCsvOfLines(header: seq<string>, rows: seq<seq<string>>, sep: char)
    requires sep == ';' || sep == ','
    requires PlainRow(header) && forall k :: 0 <= k < |rows| ==> PlainRow(rows[k])
    ensures ParseCsv(Join(CsvLines([header] + rows, sep), '\n')) == Some((header, rows))
  {
    var table := [header] + rows;
    var lines := CsvLines(table, sep);
    forall k | 0 <= k < |lines|
      ensures '\n' !in lines[k] && HasContent(lines[k]) && Cells(lines[k]) == table[k]
    {
      LineOfPlainRow(table[k], sep);
    }
    NonBlankLinesOfJoin(lines);
    var parsed := seq(|lines|, k requires 0 <= k < |lines| => Cells(lines[k]));
    assert parsed == table;
    assert parsed[1..] == rows;
  }

  // ---------------------------------------------------------------------
  // The column mapping
  // ---------------------------------------------------------------------

  /** The keys of the mapping. */
  datatype MappingKey = DescriptionKey | CategoryKey | AmountKey | DateKey

  /** `Object.keys(mapping)`: every key once, in declaration order. */
  const Keys: seq<MappingKey> := [DescriptionKey, CategoryKey, AmountKey, DateKey]

  /** The column each field is read from. */
  datatype ColumnMapping = ColumnMapping(description: Option<nat>, category: Option<nat>, amount: Option<nat>, date: Option<nat>)

  const EmptyMapping := ColumnMapping(None, None, None, None)

  function Get(m: ColumnMapping, k: MappingKey): Option<nat>
  {
    match k
    case DescriptionKey => m.description
    case CategoryKey => m.category
    case AmountKey => m.amount
    case DateKey => m.date
  }

  /** The mapping with key `k` set to `v`. */
  function With(m: ColumnMapping, k: MappingKey, v: Option<nat>): (r: ColumnMapping)
    ensures Get(r, k) == v
    ensures forall j :: j != k ==> Get(r, j) == Get(m, j)
  {
    match k
    case DescriptionKey => m.(description := v)
    case CategoryKey => m.(category := v)
    case AmountKey => m.(amount := v)
    case DateKey => m.(date := v)
  }

  /** Mappings that agree on every key `Object.keys` lists are equal. */
  lemma MappingsAgree(a: ColumnMapping, b: ColumnMapping)
    requires forall j :: 0 <= j < |Keys| ==> Get(a, Keys[j]) == Get(b, Keys[j])
    ensures a == b
  {
    assert Get(a, Keys[0]) == Get(b, Keys[0]) && Get(a, Keys[1]) == Get(b, Keys[1]);
    assert Get(a, Keys[2]) == Get(b, Keys[2]) && Get(a, Keys[3]) == Get(b, Keys[3]);
  }

  /** No column is used by two keys. */
  predicate OneToOne(m: ColumnMapping)
  {
    forall j, k :: j != k && Get(m, j).Some? ==> Get(m, j) != Get(m, k)
  }

  const DescriptionWords: seq<string> := ["description", "libelle", "label"]
  const CategoryWords: seq<string> := ["categorie", "category", "type"]
  const AmountWords: seq<string> := ["montant", "amount", "prix", "price"]

  /** The key a header is given: its lower-cased text is tried for description, category, amount and date words, in that order. */
  function HeaderKey(header: string): Option<MappingKey>
  {
    var lower := ToLower(header);
    if ContainsAny(lower, DescriptionWords) then Some(DescriptionKey)
    else if ContainsAny(lower, CategoryWords) then Some(CategoryKey)
    else if ContainsAny(lower, AmountWords) then Some(AmountKey)
    else if Contains(lower, "date") then Some(DateKey)
    else None
  }

  /** The keys the headers are given, position by position. */
  function HeaderKeys(headers: seq<string>): seq<Option<MappingKey>>
  {
    seq(|headers|, i requires 0 <= i < |headers| => HeaderKey(headers[i]))
  }

  /** The mapping built from the headers' keys left to right: position `i` sets its key to column `i`. */
  function MappingOf(keys: seq<Option<MappingKey>>): ColumnMapping
  {
    if keys == [] then EmptyMapping
    else
      var i := |keys| - 1;
      var m := MappingOf(keys[..i]);
      match keys[i]
      case None => m
      case Some(k) => With(m, k, Some(i))
  }

  /** The automatic mapping of `handleFileUpload`: a later matching header overwrites an earlier one. */
  function AutoMapping(headers: seq<string>): ColumnMapping
  {
    MappingOf(HeaderKeys(headers))
  }

  /** A key holds the last position given that key, and nothing when no position is. */
  lemma {:induction false} MappingOfIsLastMatch(keys: seq<Option<MappingKey>>, k: MappingKey)
    ensures Get(MappingOf(keys), k).None? <==> forall i :: 0 <= i < |keys| ==> keys[i] != Some(k)
    ensures Get(MappingOf(keys), k).Some? ==>
      var i := Get(MappingOf(keys), k).value;
      i < |keys| && keys[i] == Some(k) && forall j :: i < j < |keys| ==> keys[j] != Some(k)
  {
    if keys != [] {
      var n := |keys| - 1;
      var init := keys[..n];
      MappingOfIsLastMatch(init, k);
      assert forall i :: 0 <= i < n ==> keys[i] == init[i];
    }
  }

  /** In the automatic mapping a key holds the LAST header given that key, and nothing when no header is given it. */
  lemma AutoMappingIsLastMatch(headers: seq<string>, k: MappingKey)
    ensures Get(AutoMapping(headers), k).None? <==> forall i :: 0 <= i < |headers| ==> HeaderKey(headers[i]) != Some(k)
    ensures Get(AutoMapping(headers), k).Some? ==>
      var i := Get(AutoMapping(headers), k).value;
      i < |headers| && HeaderKey(headers[i]) == Some(k)
      && forall j :: i < j < |headers| ==> HeaderKey(headers[j]) != Some(k)
  {
    var keys := HeaderKeys(headers);
    assert |keys| == |headers| && forall i :: 0 <= i < |keys| ==> keys[i] == HeaderKey(headers[i]);
    MappingOfIsLastMatch(keys, k);
  }

  /** Distinct keys of the automatic mapping hold distinct columns, all of them header positions. */
  lemma AutoMappingOneToOne(headers: seq<string>)
    ensures OneToOne(AutoMapping(headers))
    ensures forall k :: Get(AutoMapping(headers), k).Some? ==> Get(AutoMapping(headers), k).value < |headers|
  {
    var m := AutoMapping(headers);
    forall j, k | j != k && Get(m, j).Some?
      ensures Get(m, j) != Get(m, k)
    {
      AutoMappingIsLastMatch(headers, j);
      AutoMappingIsLastMatch(headers, k);
    }
    forall k | Get(m, k).Some?
      ensures Get(m, k).value < |headers|
    {
      AutoMappingIsLastMatch(headers, k);
    }
  }

  /** The `forEach` over the headers that fills the automatic mapping. */
  method AutoMap(headers: seq<string>) returns (m: ColumnMapping)
    ensures m == AutoMapping(headers)
  {
    ghost var keys := HeaderKeys(headers);
    m := EmptyMapping;
    for i := 0 to |headers|
      invariant m == MappingOf(keys[..i])
    {
      assert keys[..i + 1][..i] == keys[..i] && keys[i] == HeaderKey(headers[i]);
      var lower := ToLower(headers[i]);
      if ContainsAny(lower, DescriptionWords) {
        m := m.(description := Some(i));
      } else if ContainsAny(lower, CategoryWords) {
        m := m.(category := Some(i));
      } else if ContainsAny(lower, AmountWords) {
        m := m.(amount := Some(i));
      } else if Contains(lower, "date") {
        m := m.(date := Some(i));
      }
    }
    assert keys[..|headers|] == keys;
  }

  /** Every key that held column `c` is emptied. */
  function ColumnCleared(m: ColumnMapping, c: nat): ColumnMapping
  {
    var keep := (v: Option<nat>) => if v == Some(c) then None else v;
    ColumnMapping(keep(m.description), keep(m.category), keep(m.amount), keep(m.date))
  }

  /** `handleMappingChange(k, c)`: key `k` takes column `c` away from whichever key had it. */
  function MappingChanged(m: ColumnMapping, k: MappingKey, c: nat): ColumnMapping
  {
    With(ColumnCleared(m, c), k, Some(c))
  }

  /** Afterwards no key holds `c`; keys that held another column keep it; a one-to-one mapping stays one-to-one. */
  lemma ColumnClearedSpec(m: ColumnMapping, c: nat)
    ensures forall j :: Get(ColumnCleared(m, c), j) != Some(c)
    ensures forall j :: Get(m, j) == Some(c) ==> Get(ColumnCleared(m, c), j).None?
    ensures forall j :: Get(m, j) != Some(c) ==> Get(ColumnCleared(m, c), j) == Get(m, j)
    ensures OneToOne(m) ==> OneToOne(ColumnCleared(m, c))
  {
  }

  /** Afterwards `k` holds `c`, no other key does, the other keys keep any other column, and one-to-one is kept. */
  lemma MappingChangedSpec(m: ColumnMapping, k: MappingKey, c: nat)
    ensures Get(MappingChanged(m, k, c), k) == Some(c)
    ensures forall j :: j != k ==> Get(MappingChanged(m, k, c), j) != Some(c)
    ensures forall j :: j != k && Get(m, j) != Some(c) ==> Get(MappingChanged(m, k, c), j) == Get(m, j)
    ensures OneToOne(m) ==> OneToOne(MappingChanged(m, k, c))
  {
    ColumnClearedSpec(m, c);
  }

  /** The key loop of `handleMappingChange`: other keys holding `c` are emptied, then `k` is set. */
  method ChangeMapping(m: ColumnMapping, k: MappingKey, c: nat) returns (r: ColumnMapping)
    ensures r == MappingChanged(m, k, c)
  {
    r := m;
    for i := 0 to |Keys|
      invariant forall j :: 0 <= j < i ==>
        Get(r, Keys[j]) == if Get(m, Keys[j]) == Some(c) && Keys[j] != k then None else Get(m, Keys[j])
      invariant forall j :: i <= j < |Keys| ==> Get(r, Keys[j]) == Get(m, Keys[j])
    {
      if Get(r, Keys[i]) == Some(c) && Keys[i] != k {
        r := With(r, Keys[i], None);
      }
    }
    r := With(r, k, Some(c));
    MappingsAgree(r, MappingChanged(m, k, c));
  }

  /** The key loop of `handleColumnSelect` for "none": every key holding `c` is emptied. */
  method ClearColumn(m: ColumnMapping, c: nat) returns (r: ColumnMapping)
    ensures r == ColumnCleared(m, c)
  {
    r := m;
    for i := 0 to |Keys|
      invariant forall j :: 0 <= j < i ==> Get(r, Keys[j]) == if Get(m, Keys[j]) == Some(c) then None else Get(m, Keys[j])
      invariant forall j :: i <= j < |Keys| ==> Get(r, Keys[j]) == Get(m, Keys[j])
    {
      if Get(r, Keys[i]) == Some(c) {
        r := With(r, Keys[i], None);
      }
    }
    MappingsAgree(r, ColumnCleared(m, c));
  }

  /** The preview needs a description, an amount and a date column. */
  predicate ReadyForPreview(m: ColumnMapping)
  {
    m.description.Some? && m.amount.Some? && m.date.Some?
  }

  // ---------------------------------------------------------------------
  // parseFrenchDate
  // ---------------------------------------------------------------------

  /** Day, month and year of a text matching `/^(\d{1,2})\/(\d{1,2})\/(\d{4})$/`. */
  function FrenchDateParts(s: string): Option<(string, string, string)>
  {
    var p := Split(s, '/');
    if |p| == 3 && 1 <= |p[0]| <= 2 && 1 <= |p[1]| <= 2 && |p[2]| == 4
      && AllDigits(p[0]) && AllDigits(p[1]) && AllDigits(p[2])
    then Some((p[0], p[1], p[2]))
    else None
  }

  /**
   * `parseFrenchDate(s)`: an empty text gives `today`, a `YYYY-MM-DD` text
   * is kept, a day-first `d/m/yyyy` text is reordered and padded (no range
   * check), anything else gives `today`.
   */
  function ParseFrenchDate(s: string, today: string): string
  {
    if s == [] then today
    else if IsIsoShape(s) then s
    else match FrenchDateParts(s)
      case Some((day, month, year)) => year + "-" + PadStart2(month) + "-" + PadStart2(day)
      case None => today
  }

  /** One or two digits padded to two read as the same number. */
  lemma PadStart2OfDigits(x: string)
    requires 1 <= |x| <= 2 && AllDigits(x)
    ensures |PadStart2(x)| == 2 && AllDigits(PadStart2(x)) && DigitsValue(PadStart2(x)) == DigitsValue(x)
  {
    if |x| == 1 {
      var p := PadStart2(x);
      assert p[..1] == "0" && p[..1][..0] == [] && x[..0] == [];
    }
  }

  /** A `YYYY-MM-DD` text has no `/`. */
  lemma IsoHasNoSlash(s: string)
    requires IsIsoShape(s)
    ensures '/' !in s
  {
    forall i | 0 <= i < |s|
      ensures s[i] != '/'
    {
      if i < 4 {
        assert s[..4][i] == s[i];
      } else if 5 <= i < 7 {
        assert s[5..7][i - 5] == s[i];
      } else if 8 <= i {
        assert s[8..10][i - 8] == s[i];
      }
    }
  }

  /** The four cases of the date rule; a day-first text becomes a `YYYY-MM-DD` text that reads back as year, month and day. */
  lemma ParseFrenchDateCases(s: string, today: string)
    ensures s == [] ==> ParseFrenchDate(s, today) == today
    ensures IsIsoShape(s) ==> ParseFrenchDate(s, today) == s
    ensures FrenchDateParts(s).Some? ==>
      var (day, month, year) := FrenchDateParts(s).value;
      var r := ParseFrenchDate(s, today);
      IsIsoShape(r) && ParseIso(r) == Some(Ymd(DigitsValue(year), DigitsValue(month), DigitsValue(day)))
    ensures s != [] && !IsIsoShape(s) && FrenchDateParts(s).None? ==> ParseFrenchDate(s, today) == today
  {
    if FrenchDateParts(s).Some? {
      var (day, month, year) := FrenchDateParts(s).value;
      assert Split("", '/') == [""];
      assert !IsIsoShape(s) by {
        if IsIsoShape(s) {
          IsoHasNoSlash(s);
          SplitNoSeparator(s, '/');
        }
      }
      PadStart2OfDigits(month);
      PadStart2OfDigits(day);
      ParseIsoParts(year, PadStart2(month), PadStart2(day), ParseFrenchDate(s, today));
    }
  }

  /** Every result is `today` or a `YYYY-MM-DD` text, so with an ISO `today` a second pass changes nothing. */
  lemma ParseFrenchDateIdempotent(s: string, today: string)
    ensures ParseFrenchDate(s, today) == today || IsIsoShape(ParseFrenchDate(s, today))
    ensures IsIsoShape(today) ==> ParseFrenchDate(ParseFrenchDate(s, today), today) == ParseFrenchDate(s, today)
  {
    ParseFrenchDateCases(s, today);
  }

  // ---------------------------------------------------------------------
  // handleImport and the preview
  // ---------------------------------------------------------------------

  /** `row[parseInt(col)]`, with a missing column or cell read as the empty text. */
  function CellAt(row: seq<string>, col: Option<nat>): string
  {
    if col.Some? && col.value < |row| then row[col.value] else ""
  }

  /** `row[amountColumn]?.replace(",", ".") || "0"`. */
  function AmountText(row: seq<string>, m: ColumnMapping): string
  {
    var cell := CellAt(row, m.amount);
    if cell == [] then "0" else ReplaceFirst(cell, ',', '.')
  }

  /** `parseFloat` of the amount text; `None` is NaN. */
  function RowAmount(row: seq<string>, m: ColumnMapping): Option<real>
  {
    ParseFloat(AmountText(row, m))
  }

  /** A row is imported when its amount is negative (NaN is not). */
  predicate IsExpenseRow(row: seq<string>, m: ColumnMapping)
  {
    RowAmount(row, m).Some? && RowAmount(row, m).value < 0.0
  }

  /** The row test of the preview's and the import's `filter`, under mapping `m`. */
  function ExpenseTest(m: ColumnMapping): seq<string> -> bool
  {
    row => IsExpenseRow(row, m)
  }

  const NoDescription: string := "Sans description"
  const OtherCategory: string := "Autre"

  /**
   * What `handleImport`'s `map` makes of row `row` with id `id`: a record
   * when the amount is negative (then `Math.abs` of it is its negation),
   * `None` for a row the `filter` drops.
   */
  function RowRecord(row: seq<string>, m: ColumnMapping, id: int, today: string): Option<Expense>
  {
    var description := CellAt(row, m.description);
    var category := CellAt(row, m.category);
    if IsExpenseRow(row, m) then
      Some(Expense(
        id,
        if category == [] then OtherCategory else category,
        if description == [] then NoDescription else description,
        -RowAmount(row, m).value,
        ParseFrenchDate(CellAt(row, m.date), today),
        false, Untyped, false, None))
    else None
  }

  /** The callback of `handleImport`'s `map` under mapping `m` on day `today`. */
  function RecordMaker(m: ColumnMapping, today: string): (seq<string>, int) -> Option<Expense>
  {
    (row, id) => RowRecord(row, m, id, today)
  }

  /** `rows.map((row, index) => make(row, now + index))`. */
  function NumberRows(rows: seq<seq<string>>, make: (seq<string>, int) -> Option<Expense>, now: int): (xs: seq<Option<Expense>>)
    ensures |xs| == |rows|
  {
    seq(|rows|, i requires 0 <= i < |rows| => make(rows[i], now + i))
  }

  /** `handleImport` at time `now`: the mapped rows the `filter` keeps, without their flag. */
  function Imported(rows: seq<seq<string>>, m: ColumnMapping, now: int, today: string): seq<Expense>
  {
    Somes(NumberRows(rows, RecordMaker(m, today), now))
  }

  /** The count shown in the preview: the rows with a negative amount. */
  function PreviewCount(rows: seq<seq<string>>, m: ColumnMapping): nat
  {
    |Filter(rows, ExpenseTest(m))|
  }

  /** A row yields a record exactly when its amount is negative, and the record has the id it was given. */
  lemma RowRecordShape(row: seq<string>, m: ColumnMapping, id: int, today: string)
    ensures RowRecord(row, m, id, today).Some? <==> IsExpenseRow(row, m)
    ensures RowRecord(row, m, id, today).Some? ==> RowRecord(row, m, id, today).value.id == id
  {
  }

  /** The same, for the callback of the `map`. */
  lemma RecordMakerShape(m: ColumnMapping, today: string)
    ensures forall row, id :: RecordMaker(m, today)(row, id).Some? <==> ExpenseTest(m)(row)
    ensures forall row, id :: RecordMaker(m, today)(row, id).Some? ==> RecordMaker(m, today)(row, id).value.id == id
  {
  }

  /** Records numbered by position keep their numbering through `Somes`: ids name their position and increase. */
  lemma {:induction false} NumberedSomes(xs: seq<Option<Expense>>, now: int)
    requires forall i :: 0 <= i < |xs| && xs[i].Some? ==> xs[i].value.id == now + i
    ensures forall k :: 0 <= k < |Somes(xs)| ==>
      now <= Somes(xs)[k].id < now + |xs| && xs[Somes(xs)[k].id - now] == Some(Somes(xs)[k])
    ensures forall j, k :: 0 <= j < k < |Somes(xs)| ==> Somes(xs)[j].id < Somes(xs)[k].id
  {
    if xs != [] {
      var n := |xs| - 1;
      var init := xs[..n];
      NumberedSomes(init, now);
      assert forall i :: 0 <= i < n ==> xs[i] == init[i];
      var r, ri := Somes(xs), Somes(init);
      if xs[n].Some? {
        assert r == ri + [xs[n].value];
        forall k | 0 <= k < |r|
          ensures now <= r[k].id < now + |xs| && xs[r[k].id - now] == Some(r[k])
        {
          if k < |ri| {
            assert r[k] == ri[k];
            assert init[ri[k].id - now] == Some(ri[k]);
          }
        }
      } else {
        assert r == ri;
      }
    }
  }

  /**
   * For any callback that keeps the id it is given and answers exactly for
   * the rows passing `keep`: each kept record's id names a passing row that
   * makes that very record, ids increase, and there are as many records as
   * passing rows.
   */
  lemma NumberedFilter(rows: seq<seq<string>>, make: (seq<string>, int) -> Option<Expense>, keep: seq<string> -> bool, now: int)
    requires forall row, id :: make(row, id).Some? <==> keep(row)
    requires forall row, id :: make(row, id).Some? ==> make(row, id).value.id == id
    ensures var r := Somes(NumberRows(rows, make, now));
      forall k :: 0 <= k < |r| ==>
        now <= r[k].id < now + |rows| && keep(rows[r[k].id - now]) && make(rows[r[k].id - now], r[k].id) == Some(r[k])
    ensures var r := Somes(NumberRows(rows, make, now));
      forall j, k :: 0 <= j < k < |r| ==> r[j].id < r[k].id
    ensures |Somes(NumberRows(rows, make, now))| == |Filter(rows, keep)|
  {
    var xs := NumberRows(rows, make, now);
    NumberedSomes(xs, now);
    SomesCount(rows, xs, keep);
  }

  /** The import yields as many records as the preview announces. */
  lemma ImportCountShown(rows: seq<seq<string>>, m: ColumnMapping, now: int, today: string)
    ensures |Imported(rows, m, now, today)| == PreviewCount(rows, m)
  {
    RecordMakerShape(m, today);
    NumberedFilter(rows, RecordMaker(m, today), ExpenseTest(m), now);
  }

  /** The records' ids name rows and strictly increase. */
  lemma ImportedIds(rows: seq<seq<string>>, m: ColumnMapping, now: int, today: string)
    ensures var r := Imported(rows, m, now, today);
      forall k :: 0 <= k < |r| ==> now <= r[k].id < now + |rows|
    ensures var r := Imported(rows, m, now, today);
      forall j, k :: 0 <= j < k < |r| ==> r[j].id < r[k].id
  {
    RecordMakerShape(m, today);
    NumberedFilter(rows, RecordMaker(m, today), ExpenseTest(m), now);
  }

  /** Record `k` is what the row its id names makes, and that row has a negative amount. */
  lemma ImportedRecord(rows: seq<seq<string>>, m: ColumnMapping, now: int, today: string, k: nat)
    requires k < |Imported(rows, m, now, today)|
    ensures var e := Imported(rows, m, now, today)[k];
      now <= e.id < now + |rows| && IsExpenseRow(rows[e.id - now], m)
      && RowRecord(rows[e.id - now], m, e.id, today) == Some(e)
  {
    var xs := NumberRows(rows, RecordMaker(m, today), now);
    RecordMakerShape(m, today);
    NumberedSomes(xs, now);
    var e := Somes(xs)[k];
    var j := e.id - now;
    assert xs[j] == Some(e);
    assert now + j == e.id;
    RowRecordShape(rows[j], m, e.id, today);
  }

  /** Every row with a negative amount is imported, with id `now + i`. */
  lemma ImportedCoversRows(rows: seq<seq<string>>, m: ColumnMapping, now: int, today: string, i: nat)
    requires i < |rows| && IsExpenseRow(rows[i], m)
    ensures RowRecord(rows[i], m, now + i, today).Some?
    ensures RowRecord(rows[i], m, now + i, today).value in Imported(rows, m, now, today)
  {
    var xs := NumberRows(rows, RecordMaker(m, today), now);
    assert xs[i] == RowRecord(rows[i], m, now + i, today);
    SomesHas(xs, i);
  }

  /** What every imported record looks like: a positive amount, not recurring, a description, a category, and a date that is `today` or `YYYY-MM-DD`. */
  predicate WellImported(e: Expense, today: string)
  {
    e.amount > 0.0 && !e.recurring && e.description != [] && e.category != []
    && (e.date == today || IsIsoShape(e.date))
  }

  /** A record made from a row is well imported. */
  lemma RowRecordFields(row: seq<string>, m: ColumnMapping, id: int, today: string)
    requires RowRecord(row, m, id, today).Some?
    ensures WellImported(RowRecord(row, m, id, today).value, today)
  {
    ParseFrenchDateIdempotent(CellAt(row, m.date), today);
  }

  /** Every imported record is well imported. */
  lemma ImportedFields(rows: seq<seq<string>>, m: ColumnMapping, now: int, today: string)
    ensures var r := Imported(rows, m, now, today);
      forall k :: 0 <= k < |r| ==> WellImported(r[k], today)
  {
    var xs := NumberRows(rows, RecordMaker(m, today), now);
    var good := e => WellImported(e, today);
    forall i | 0 <= i < |xs| && xs[i].Some?
      ensures good(xs[i].value)
    {
      RowRecordFields(rows[i], m, now + i, today);
    }
    SomesAll(xs, good);
  }

  /** `previewData.filter(...).slice(0, 5)`: the imported rows among the first five data rows. */
  function PreviewRows(rows: seq<seq<string>>, m: ColumnMapping): seq<seq<string>>
  {
    var first := if |rows| <= 5 then rows else rows[..5];
    var shown := Filter(first, ExpenseTest(m));
    if |shown| <= 5 then shown else shown[..5]
  }

  /** The preview shows at most five rows, the first of the rows the import keeps. */
  lemma PreviewRowsArePrefix(rows: seq<seq<string>>, m: ColumnMapping)
    ensures |PreviewRows(rows, m)| <= 5
    ensures PreviewRows(rows, m) <= Filter(rows, ExpenseTest(m))
    ensures forall k :: 0 <= k < |PreviewRows(rows, m)| ==> IsExpenseRow(PreviewRows(rows, m)[k], m)
  {
    if |rows| > 5 {
      assert rows == rows[..5] + rows[5..];
      FilterConcat(rows[..5], rows[5..], ExpenseTest(m));
    }
  }

  /** The count in the preview title as written: every data row, incomes included. */
  function PreviewTitleCount(rows: seq<seq<string>>): nat
  {
    |rows|
  }

  /** With one row that is not an expense, the title announces more records than the import yields. */
  lemma TitleCountsIncomeRows(rows: seq<seq<string>>, m: ColumnMapping, now: int, today: string, i: nat)
    requires i < |rows| && !IsExpenseRow(rows[i], m)
    ensures PreviewTitleCount(rows) > |Imported(rows, m, now, today)|
  {
    ImportCountShown(rows, m, now, today);
    FilterDrops(rows, ExpenseTest(m), i);
  }

  // ---------------------------------------------------------------------
  // The dialog
  // ---------------------------------------------------------------------

  datatype Step = UploadStep | MappingStep | PreviewStep

  /** The dialog's state: the step shown, the data rows, the headers and the mapping. */
  class ImportDialog {
    var step: Step
    var csvData: seq<seq<string>>
    var headers: seq<string>
    var mapping: ColumnMapping

    predicate Valid()
      reads this
    {
      OneToOne(mapping)
    }

    /** The state `handleClose` leaves. */
    predicate Closed()
      reads this
    {
      step == UploadStep && csvData == [] && headers == [] && mapping == EmptyMapping
    }

    constructor()
      ensures Valid() && Closed()
    {
      step := UploadStep;
      csvData := [];
      headers := [];
      mapping := EmptyMapping;
    }

    /** The `onload` handler of `handleFileUpload` on the file's text; `alerted` is the empty-file alert. */
    method HandleFileUpload(text: string) returns (alerted: bool)
      requires Valid()
      modifies this
      ensures Valid()
      ensures alerted <==> ParseCsv(text).None?
      ensures alerted ==> step == old(step) && csvData == old(csvData) && headers == old(headers) && mapping == old(mapping)
      ensures !alerted ==>
        step == MappingStep && (headers, csvData) == ParseCsv(text).value && mapping == AutoMapping(headers)
    {
      var parsed := ParseCsv(text);
      if parsed.None? {
        return true;
      }
      alerted := false;
      headers := parsed.value.0;
      csvData := parsed.value.1;
      step := MappingStep;
      var m := AutoMap(headers);
      AutoMappingOneToOne(headers);
      mapping := m;
    }

    /** `handleMappingChange(k, c)`. */
    method HandleMappingChange(k: MappingKey, c: nat)
      requires Valid()
      modifies this`mapping
      ensures Valid() && mapping == MappingChanged(old(mapping), k, c)
    {
      mapping := ChangeMapping(mapping, k, c);
      MappingChangedSpec(old(mapping), k, c);
    }

    /** `handleColumnSelect(col, choice)`; `None` is the "none" entry. */
    method HandleColumnSelect(col: nat, choice: Option<MappingKey>)
      requires Valid()
      modifies this`mapping
      ensures Valid()
      ensures choice.None? ==> mapping == ColumnCleared(old(mapping), col)
      ensures choice.Some? ==> mapping == MappingChanged(old(mapping), choice.value, col)
    {
      if choice.None? {
        mapping := ClearColumn(mapping, col);
        ColumnClearedSpec(old(mapping), col);
      } else {
        HandleMappingChange(choice.value, col);
      }
    }

    /** `handlePreview`; `alerted` is the missing-column alert. */
    method HandlePreview() returns (alerted: bool)
      modifies this`step
      ensures alerted <==> !ReadyForPreview(mapping)
      ensures alerted ==> step == old(step)
      ensures !alerted ==> step == PreviewStep
    {
      alerted := !ReadyForPreview(mapping);
      if !alerted {
        step := PreviewStep;
      }
    }

    /** The mapping step's back button: the rows and headers are dropped, the mapping is kept. */
    method BackToUpload()
      modifies this
      ensures step == UploadStep && csvData == [] && headers == []
      ensures mapping == old(mapping) && (old(Valid()) ==> Valid())
    {
      step := UploadStep;
      csvData := [];
      headers := [];
    }

    /** The preview step's back button: only the step changes. */
    method BackToMapping()
      modifies this`step
      ensures step == MappingStep
    {
      step := MappingStep;
    }

    /** `handleClose`, without the file input reset and the `onClose` callback. */
    method HandleClose()
      modifies this
      ensures Valid() && Closed()
    {
      step := UploadStep;
      csvData := [];
      headers := [];
      mapping := EmptyMapping;
    }

    /** `handleImport` at time `now`: the records handed to `onImport`, then the dialog is closed. */
    method HandleImport(now: int, today: string) returns (imported: seq<Expense>)
      modifies this
      ensures imported == Imported(old(csvData), old(mapping), now, today)
      ensures Valid() && Closed()
    {
      imported := Imported(csvData, mapping, now, today);
      HandleClose();
    }
  }
}
