/**
 * The manual side of receipt scanning: the OCR lines shown to the user, the
 * line picked for each field, the field being picked, and the per-line
 * amount and date readers applied when the selection is confirmed. The OCR
 * engine, the file reader and the clock are parameters.
 */
module ReceiptScanner {
  import opened Options
  import opened Text
  import opened Seqs
  import opened JsNumber
  import opened CivilDate
  import opened ReceiptParser

  /** `FieldType` without its `null`, which is `None` where it occurs. */
  datatype Field = DescriptionField | AmountField | DateField | CategoryField

  /** `selectedLines`: the index of the OCR line picked for each field. */
  datatype Selection = Selection(description: Option<nat>, amount: Option<nat>, date: Option<nat>, category: Option<nat>)

  const NoSelection: Selection := Selection(None, None, None, None)

  /** `selectedLines[f]`. */
  function Selected(sel: Selection, f: Field): Option<nat>
  {
    match f
    case DescriptionField => sel.description
    case AmountField => sel.amount
    case DateField => sel.date
    case CategoryField => sel.category
  }

  /** `{ ...sel, [f]: v }`: field `f` gets `v`, the others keep their line. */
  function WithSelected(sel: Selection, f: Field, v: Option<nat>): (r: Selection)
    ensures Selected(r, f) == v
    ensures forall g :: g != f ==> Selected(r, g) == Selected(sel, g)
  {
    match f
    case DescriptionField => sel.(description := v)
    case AmountField => sel.(amount := v)
    case DateField => sel.(date := v)
    case CategoryField => sel.(category := v)
  }

  /** Every picked line is one of the `n` OCR lines. */
  predicate InRange(sel: Selection, n: nat)
  {
    (sel.description.Some? ==> sel.description.value < n)
    && (sel.amount.Some? ==> sel.amount.value < n)
    && (sel.date.Some? ==> sel.date.value < n)
    && (sel.category.Some? ==> sel.category.value < n)
  }

  // ---------------------------------------------------------------------
  // Per-line readers
  // ---------------------------------------------------------------------

  /** `extractAmountFromLine`, in cents: the line's first amount, else 0. */
  function AmountFromLine(line: string): nat
  {
    match FindAmount(line, 0)
    case Some(m) => m.cents
    case None => 0
  }

  /**
   * With a match, `parseFloat` of its two groups joined by `.` is the result
   * divided by 100 and no earlier position matches; without one, the result
   * is 0 and no position matches.
   */
  lemma AmountFromLineRead(line: string)
    ensures match FindAmount(line, 0)
      case Some(m) =>
        (ParseFloat(AmountUnits(line, m.index) + "." + AmountHundredths(line, m.index))
          == Some(AmountFromLine(line) as real / 100.0))
        && forall j :: 0 <= j < m.index ==> !AmountAt(line, j)
      case None => AmountFromLine(line) == 0 && forall j :: 0 <= j ==> !AmountAt(line, j)
  {
    match FindAmount(line, 0)
    case Some(m) => AmountValue(line, m.index);
    case None =>
  }

  /** `extractDateFromLine`: the line's date as `YYYY-MM-DD`, else `today`. */
  function DateFromLine(line: string, today: string): string
  {
    match LineDate(line)
    case Some(d) => DateText(d)
    case None => today
  }

  /** The scanner reads a line's date exactly as `extractDate` reads a receipt of that one line. */
  lemma DateFromLineAgreesWithParser(line: string, today: string)
    ensures DateFromLine(line, today) == DateOf([line], today)
  {
    var lines := [line];
    assert lines[1..] == [];
    assert FirstDate(lines) == LineDate(line);
  }

  /** The result is `today` or a date text with month 1..12 and day 1..31. */
  lemma DateFromLineShape(line: string, today: string)
    ensures DateFromLine(line, today) == today
      || exists y, m, d :: 1 <= m <= 12 && 1 <= d <= 31 && DateFromLine(line, today) == IsoText(y, m, d)
  {
    if LineDate(line).Some? {
      var d := LineDate(line).value;
      assert DateFromLine(line, today) == IsoText(d.year, d.month, d.day);
    }
  }

  /** A date with a four-digit year is read back from the text the scanner produces. */
  lemma DateFromLineRoundTrip(line: string, today: string)
    requires LineDate(line).Some? && 1000 <= LineDate(line).value.year < 10000
    ensures ParseIso(DateFromLine(line, today)) == LineDate(line)
  {
    var d := LineDate(line).value;
    IsoTextRoundTrip(d.year, d.month, d.day);
  }

  // ---------------------------------------------------------------------
  // Preselection after a scan
  // ---------------------------------------------------------------------

  /** `lines.findIndex(l => l.includes(t))`, with `-1` turned into `None`. */
  function IndexContaining(lines: seq<string>, t: string): (r: Option<nat>)
    ensures r.Some? ==> r.value < |lines|
  {
    if lines == [] then None
    else if Contains(lines[0], t) then Some(0)
    else
      match IndexContaining(lines[1..], t)
      case None => None
      case Some(k) => Some(k + 1)
  }

  /** The index found is that of the first line holding `t`; `None` means no line holds it. */
  lemma {:induction false} IndexContainingIsFirst(lines: seq<string>, t: string)
    ensures var r := IndexContaining(lines, t);
      r.Some? ==> Contains(lines[r.value], t)
    ensures var r := IndexContaining(lines, t);
      forall k :: 0 <= k < |lines| && (r.None? || k < r.value) ==> !Contains(lines[k], t)
  {
    if lines != [] && !Contains(lines[0], t) {
      IndexContainingIsFirst(lines[1..], t);
      assert forall k :: 1 <= k < |lines| ==> lines[k] == lines[1..][k - 1];
    }
  }

  /** `date.split("-").reverse().join("/")`. */
  function SlashDate(date: string): string
  {
    Join(Reverse(Split(date, '-')), '/')
  }

  /** A `YYYY-MM-DD` text becomes `DD/MM/YYYY`. */
  lemma SlashDateOfIso(a: string, b: string, c: string)
    requires '-' !in a && '-' !in b && '-' !in c
    ensures SlashDate(a + "-" + b + "-" + c) == c + "/" + b + "/" + a
  {
    SplitNoSeparator(c, '-');
    SplitFirstPiece(b, c, '-');
    SplitFirstPiece(a, b + "-" + c, '-');
    assert a + "-" + b + "-" + c == a + ['-'] + (b + ['-'] + c);
    var parts := Split(a + "-" + b + "-" + c, '-');
    assert parts == [a, b, c];
    assert Reverse(parts) == [c, b, a];
    JoinThree(c, b, a, '/');
  }

  /** Joining three pieces puts the separator between each neighbouring pair. */
  lemma JoinThree(x: string, y: string, z: string, sep: char)
    ensures Join([x, y, z], sep) == x + [sep] + y + [sep] + z
  {
    var parts := [x, y, z];
    assert parts[1..] == [y, z] && parts[1..][1..] == [z];
    assert Join([z], sep) == z;
    assert Join([y, z], sep) == y + [sep] + z;
  }

  /** The suggestion the parser makes for the scanned lines. */
  function Suggestion(lines: seq<string>, today: string): ReceiptData
  {
    ReceiptData(MerchantOf(lines), DateOf(lines, today), TotalOf(lines), ItemsOf(lines), GuessCategory(lines))
  }

  /** The first line holding each suggested value, with the total as `total.toString()`. */
  function Preselect(lines: seq<string>, data: ReceiptData): (sel: Selection)
    ensures InRange(sel, |lines|)
  {
    Selection(
      IndexContaining(lines, data.merchant),
      IndexContaining(lines, CentsToString(data.total)),
      IndexContaining(lines, SlashDate(data.date)),
      IndexContaining(lines, data.category))
  }

  /** Each preselected line holds the suggested value, and no earlier line does. */
  lemma PreselectFindsFirst(lines: seq<string>, data: ReceiptData)
    ensures var sel := Preselect(lines, data);
      sel.description.Some? ==> (Contains(lines[sel.description.value], data.merchant)
        && forall k :: 0 <= k < sel.description.value ==> !Contains(lines[k], data.merchant))
    ensures var sel := Preselect(lines, data);
      sel.amount.None? ==> forall k :: 0 <= k < |lines| ==> !Contains(lines[k], CentsToString(data.total))
  {
    IndexContainingIsFirst(lines, data.merchant);
    IndexContainingIsFirst(lines, CentsToString(data.total));
  }

  /** The lines preselected after a successful scan of `text`: the parser's reading of its lines, located among them. */
  function ScanPreselection(text: string, today: string): Selection
  {
    var lines := OcrLines(text);
    Preselect(lines, Suggestion(lines, today))
  }

  /** What a successful scan of `text` shows: its lines, and the lines preselected from the parser's reading. */
  method ReadScan(text: string, today: string) returns (lines: seq<string>, sel: Selection)
    ensures lines == OcrLines(text) && sel == ScanPreselection(text, today)
    ensures InRange(sel, |lines|)
  {
    lines := OcrLines(text);
    var parsed := ParseReceipt(text, today);
    sel := Preselect(lines, parsed);
  }

  // ---------------------------------------------------------------------
  // Line clicks and validation
  // ---------------------------------------------------------------------

  /** A click on line `i` while picking `f`: `f` gets `i`, or loses it when it already had it. */
  function Clicked(sel: Selection, f: Field, i: nat): Selection
  {
    WithSelected(sel, f, if Selected(sel, f) == Some(i) then None else Some(i))
  }

  /** The click flips whether `f` holds `i` and leaves the other fields alone; a second click undoes a first one. */
  lemma ClickedToggles(sel: Selection, f: Field, i: nat)
    ensures Selected(Clicked(sel, f, i), f) == Some(i) <==> Selected(sel, f) != Some(i)
    ensures forall g :: g != f ==> Selected(Clicked(sel, f, i), g) == Selected(sel, g)
    ensures Selected(sel, f).None? || Selected(sel, f) == Some(i) ==> Clicked(Clicked(sel, f, i), f, i) == sel
  {
  }

  const UnknownMerchantName: string := "Inconnu"
  const DefaultScanCategory: string := "Divers"

  /** The receipt built from the picked lines; `today` stands for an unpicked date. */
  function Validated(lines: seq<string>, sel: Selection, today: string): ReceiptData
    requires InRange(sel, |lines|)
  {
    ReceiptData(
      if sel.description.Some? then lines[sel.description.value] else UnknownMerchantName,
      if sel.date.Some? then DateFromLine(lines[sel.date.value], today) else today,
      if sel.amount.Some? then AmountFromLine(lines[sel.amount.value]) else 0,
      [],
      if sel.category.Some? then lines[sel.category.value] else DefaultScanCategory)
  }

  /** With nothing picked, every field takes its default; the items are always empty and the date always well formed or `today`. */
  lemma ValidatedDefaults(lines: seq<string>, sel: Selection, today: string)
    requires InRange(sel, |lines|)
    ensures sel == NoSelection ==> Validated(lines, sel, today) == ReceiptData(UnknownMerchantName, today, 0, [], DefaultScanCategory)
    ensures Validated(lines, sel, today).items == []
    ensures var date := Validated(lines, sel, today).date;
      date == today || exists y, m, d :: 1 <= m <= 12 && 1 <= d <= 31 && date == IsoText(y, m, d)
  {
    if sel.date.Some? {
      DateFromLineShape(lines[sel.date.value], today);
    }
  }

  /** JavaScript truthiness of `number | null`: `null` and `0` are false. */
  predicate Truthy(v: Option<nat>)
  {
    v.Some? && v.value != 0
  }

  /** The validate button's `disabled`, as written: line 0 counts as no line. */
  predicate ValidateDisabled(sel: Selection)
  {
    !Truthy(sel.description) && !Truthy(sel.amount)
  }

  /** Picking the first OCR line as the description leaves the button disabled. */
  lemma FirstLineKeepsValidateDisabled()
    ensures ValidateDisabled(Clicked(NoSelection, DescriptionField, 0))
  {
  }

  /** The evident intent: the button is disabled while neither a description nor an amount line is picked. */
  predicate ValidateBlocked(sel: Selection)
  {
    sel.description.None? && sel.amount.None?
  }

  /** Under the intended rule, any click that picks a description or amount line enables validation. */
  lemma PickingEnablesValidate(sel: Selection, f: Field, i: nat)
    requires f == DescriptionField || f == AmountField
    requires Selected(sel, f) != Some(i)
    ensures !ValidateBlocked(Clicked(sel, f, i))
  {
  }

  const ImageTypePrefix: string := "image/"
  const NotAnImage: string := "Veuillez sélectionner une image"
  const ReadFailed: string := "Erreur lors de la lecture de l'image"
  const ScanFailed: string := "Erreur lors du scan du ticket. Veuillez réessayer."

  /** The component's state. */
  class Scanner {
    var selectedImage: Option<string>
    var isScanning: bool
    var scanProgress: int
    var error: Option<string>
    var ocrLines: seq<string>
    var selection: Selection
    var currentField: Option<Field>

    /** Every picked line is one of the displayed OCR lines. */
    predicate Valid()
      reads this
    {
      InRange(selection, |ocrLines|)
    }

    /** The cleared state `handleCancel` also returns to. */
    predicate Cleared()
      reads this
    {
      selectedImage.None? && error.None? && scanProgress == 0 && ocrLines == []
      && selection == NoSelection && currentField.None?
    }

    constructor()
      ensures Valid() && Cleared() && !isScanning
    {
      selectedImage := None;
      isScanning := false;
      scanProgress := 0;
      error := None;
      ocrLines := [];
      selection := NoSelection;
      currentField := None;
    }

    /**
     * `handleImageSelect` for a file of type `mimeType` whose data URL the
     * reader delivers as `content` (`None` when the reader fails).
     */
    method SelectImage(mimeType: string, content: Option<string>)
      modifies this
      ensures !StartsWith(mimeType, ImageTypePrefix) ==>
        error == Some(NotAnImage) && selectedImage == old(selectedImage)
      ensures StartsWith(mimeType, ImageTypePrefix) && content.None? ==>
        error == Some(ReadFailed) && selectedImage == old(selectedImage)
      ensures StartsWith(mimeType, ImageTypePrefix) && content.Some? ==>
        error.None? && selectedImage == content
      ensures ocrLines == old(ocrLines) && selection == old(selection) && currentField == old(currentField)
      ensures isScanning == old(isScanning) && scanProgress == old(scanProgress)
      ensures old(Valid()) ==> Valid()
    {
      if !StartsWith(mimeType, ImageTypePrefix) {
        error := Some(NotAnImage);
        return;
      }
      if content.None? {
        error := Some(ReadFailed);
        return;
      }
      selectedImage := content;
      error := None;
    }

    /** A click on one of the four field buttons. */
    method ChooseField(f: Field)
      modifies this
      ensures currentField == Some(f)
      ensures selectedImage == old(selectedImage) && error == old(error) && ocrLines == old(ocrLines)
      ensures selection == old(selection) && isScanning == old(isScanning) && scanProgress == old(scanProgress)
      ensures old(Valid()) ==> Valid()
    {
      currentField := Some(f);
    }

    /** The success path of `handleScan`: the OCR lines are shown and the parser's reading preselected. */
    method ShowScan(text: string, today: string)
      modifies this`ocrLines, this`selection
      ensures ocrLines == OcrLines(text) && selection == ScanPreselection(text, today)
      ensures Valid()
    {
      var lines, sel := ReadScan(text, today);
      ocrLines := lines;
      selection := sel;
    }

    /**
     * `handleScan`; `ocr` is the text the OCR engine returns, `None` when it
     * fails. Without an image nothing happens.
     */
    method HandleScan(ocr: Option<string>, today: string)
      requires Valid()
      modifies this
      ensures Valid()
      ensures old(selectedImage).Some? ==> !isScanning
      ensures old(selectedImage).None? ==>
        error == old(error) && ocrLines == old(ocrLines) && selection == old(selection) && isScanning == old(isScanning)
      ensures old(selectedImage).Some? && ocr.None? ==>
        error == Some(ScanFailed) && ocrLines == old(ocrLines) && selection == old(selection)
      ensures old(selectedImage).Some? && ocr.Some? ==>
        error.None? && ocrLines == OcrLines(ocr.value)
        && selection == ScanPreselection(ocr.value, today)
      ensures selectedImage == old(selectedImage) && currentField == old(currentField)
      ensures old(selectedImage).Some? ==> scanProgress == 0
      ensures old(selectedImage).None? ==> scanProgress == old(scanProgress)
    {
      if selectedImage.None? {
        return;
      }
      isScanning := true;
      error := None;
      scanProgress := 0;
      if ocr.None? {
        error := Some(ScanFailed);
      } else {
        ShowScan(ocr.value, today);
      }
      isScanning := false;
    }

    /** `handleCancel`. */
    method HandleCancel()
      modifies this
      ensures Valid() && Cleared() && isScanning == old(isScanning)
    {
      selectedImage := None;
      error := None;
      scanProgress := 0;
      ocrLines := [];
      selection := NoSelection;
      currentField := None;
    }

    /** `handleLineClick` on displayed line `lineIndex`. */
    method HandleLineClick(lineIndex: nat)
      requires Valid() && lineIndex < |ocrLines|
      modifies this
      ensures Valid()
      ensures currentField.None? ==> selection == old(selection)
      ensures currentField.Some? ==> selection == Clicked(old(selection), currentField.value, lineIndex)
      ensures selectedImage == old(selectedImage) && error == old(error) && ocrLines == old(ocrLines)
      ensures currentField == old(currentField) && isScanning == old(isScanning) && scanProgress == old(scanProgress)
    {
      if currentField.None? {
        return;
      }
      selection := Clicked(selection, currentField.value, lineIndex);
    }

    /**
     * `handleValidateSelection`: the receipt built from the picked lines is
     * handed on together with the image when there is one, then everything
     * is cleared.
     */
    method HandleValidateSelection(today: string) returns (completed: Option<(ReceiptData, string)>)
      requires Valid()
      modifies this
      ensures old(selectedImage).Some? ==>
        completed == Some((Validated(old(ocrLines), old(selection), today), old(selectedImage).value))
      ensures old(selectedImage).None? ==> completed.None?
      ensures Valid() && Cleared() && isScanning == old(isScanning)
    {
      var data := Validated(ocrLines, selection, today);
      completed := if selectedImage.Some? then Some((data, selectedImage.value)) else None;
      HandleCancel();
    }
  }
}
