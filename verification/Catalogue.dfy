/** Exporting the items of a list as a table of text cells, and importing such a table. */
module Catalogue {
  import opened Prelude
  import opened Text

  datatype Result<+T, +E> = Ok(value: T) | Err(error: E)

  datatype Money = Money(amountMinor: int, currency: string)

  /** The catalogue columns of an item. */
  datatype Item = Item(
    list: Id, name: string, url: Option<string>, imageUrl: Option<string>, price: Option<Money>,
    note: Option<string>, priority: int, quantityWanted: int, allowCobuy: Option<bool>,
    thankYouTemplate: Option<string>)

  datatype ExportItem = ExportItem(
    name: string, url: Option<string>, imageUrl: Option<string>, priceAmountMinor: Option<int>,
    priceCurrency: Option<string>, note: Option<string>, priority: int, quantityWanted: int,
    allowCobuy: Option<bool>, thankYouTemplate: Option<string>)

  const HEADER: seq<string> := [
    "name", "url", "image_url", "price_amount_minor", "price_currency",
    "note", "priority", "quantity_wanted", "allow_cobuy", "thank_you_template"]

  const MAX_EXPORT_ITEMS := 2000
  const MAX_IMPORT_ITEMS := 500
  const MAX_IMPORT_BYTES := 0x10_0000

  // ---------------------------------------------------------------------- writing

  function ToExportItem(it: Item): ExportItem {
    ExportItem(
      it.name, it.url, it.imageUrl,
      if it.price.Some? then Some(it.price.value.amountMinor) else None,
      if it.price.Some? then Some(it.price.value.currency) else None,
      it.note, it.priority, it.quantityWanted, it.allowCobuy, it.thankYouTemplate)
  }

  function Cell(s: Option<string>): string {
    if s.Some? then s.value else ""
  }

  function AmountText(x: Option<int>): string {
    if x.Some? then FormatInt(x.value) else ""
  }

  function BoolText(b: Option<bool>): string {
    if b.Some? then FormatBool(b.value) else ""
  }

  function ItemToRow(it: ExportItem): seq<string> {
    [it.name, Cell(it.url), Cell(it.imageUrl), AmountText(it.priceAmountMinor),
     Cell(it.priceCurrency), Cell(it.note), FormatInt(it.priority), FormatInt(it.quantityWanted),
     BoolText(it.allowCobuy), Cell(it.thankYouTemplate)]
  }

  /** The header, then one row per item. */
  function Table(items: seq<ExportItem>): seq<seq<string>> {
    [HEADER] + seq(|items|, i requires 0 <= i < |items| => ItemToRow(items[i]))
  }

  method WriteExportCSV(items: seq<ExportItem>) returns (rows: seq<seq<string>>)
    ensures rows == Table(items)
  {
    rows := [HEADER];
    for i := 0 to |items|
      invariant rows == Table(items[..i])
    {
      rows := rows + [ItemToRow(items[i])];
      assert Table(items[..i + 1]) == Table(items[..i]) + [ItemToRow(items[i])];
    }
    assert items[..|items|] == items;
  }

  // ---------------------------------------------------------------------- reading

  datatype RowProblem =
    | WrongColumns
    | PriceNotANumber(text: string)
    | PriorityNotANumber(text: string)
    | QuantityNotANumber(text: string)
    | CobuyNotABool(text: string)

  datatype FileProblem = EmptyFile | WrongHeader | BadRow(problem: RowProblem)

  function NonEmpty(s: string): Option<string> {
    if s == "" then None else Some(s)
  }

  /** An empty numeric cell reads as zero. */
  function NumberCell(s: string): Option<int> {
    if s == "" then Some(0) else ParseInt(s)
  }

  /** An empty cell reads as an absent value; the outer None is text that cannot be read. */
  function AmountCell(s: string): Option<Option<int>> {
    if s == "" then Some(None) else if ParseInt(s).None? then None else Some(ParseInt(s))
  }

  function BoolCell(s: string): Option<Option<bool>> {
    if s == "" then Some(None) else if ParseBool(s).None? then None else Some(ParseBool(s))
  }

  function RowToItem(row: seq<string>): Result<ExportItem, RowProblem> {
    if |row| != |HEADER| then Err(WrongColumns)
    else
      var amount, cobuy := AmountCell(row[3]), BoolCell(row[8]);
      var priority, quantity := NumberCell(row[6]), NumberCell(row[7]);
      if amount.None? then Err(PriceNotANumber(row[3]))
      else if priority.None? then Err(PriorityNotANumber(row[6]))
      else if quantity.None? then Err(QuantityNotANumber(row[7]))
      else if cobuy.None? then Err(CobuyNotABool(row[8]))
      else
        Ok(ExportItem(
             row[0], NonEmpty(row[1]), NonEmpty(row[2]), amount.value, NonEmpty(row[4]),
             NonEmpty(row[5]), priority.value, quantity.value, cobuy.value, NonEmpty(row[9])))
  }

  /** A row is read if and only if it has the header's columns, its numbers are 64-bit
      decimals or empty, and its flag is a boolean or empty. An empty number is zero, the
      price's and every other empty cell a value that is absent. */
  lemma RowReadIff(row: seq<string>)
    ensures RowToItem(row).Ok? <==>
              && |row| == 10
              && (forall i :: i in {3, 6, 7} ==> row[i] == "" || ParseInt(row[i]).Some?)
              && (row[8] == "" || ParseBool(row[8]).Some?)
    ensures RowToItem(row).Ok? ==>
              var it := RowToItem(row).value;
              && it.name == row[0]
              && [it.url, it.imageUrl, it.priceCurrency, it.note, it.thankYouTemplate] ==
                 [TextIn(row[1]), TextIn(row[2]), TextIn(row[4]), TextIn(row[5]), TextIn(row[9])]
              && it.priceAmountMinor == (if row[3] == "" then None else ParseInt(row[3]))
              && it.allowCobuy == (if row[8] == "" then None else ParseBool(row[8]))
              && Some(it.priority) == (if row[6] == "" then Some(0) else ParseInt(row[6]))
              && Some(it.quantityWanted) == (if row[7] == "" then Some(0) else ParseInt(row[7]))
  {
  }

  ghost function TextIn(cell: string): Option<string> {
    if cell == "" then None else Some(cell)
  }

  /** The items of the rows, or the first problem. */
  function ParseRows(rows: seq<seq<string>>): Result<seq<ExportItem>, RowProblem> {
    if rows == [] then Ok([])
    else
      var first := RowToItem(rows[0]);
      if first.Err? then Err(first.error)
      else
        var rest := ParseRows(rows[1..]);
        if rest.Err? then rest else Ok([first.value] + rest.value)
  }

  function ParseTable(rows: seq<seq<string>>): Result<seq<ExportItem>, FileProblem> {
    if rows == [] then Err(EmptyFile)
    else if rows[0] != HEADER then Err(WrongHeader)
    else
      var items := ParseRows(rows[1..]);
      if items.Err? then Err(BadRow(items.error)) else Ok(items.value)
  }

  method ParseImportCSV(rows: seq<seq<string>>) returns (items: Result<seq<ExportItem>, FileProblem>)
    ensures items == ParseTable(rows)
  {
    if |rows| == 0 {
      return Err(EmptyFile);
    }
    if rows[0] != HEADER {
      return Err(WrongHeader);
    }
    var out: seq<ExportItem> := [];
    ghost var all := ParseRows(rows[1..]);
    assert all.Ok? ==> [] + all.value == all.value;
    for i := 1 to |rows|
      invariant all == Append(out, ParseRows(rows[i..]))
    {
      AppendOne(out, rows[i..]);
      assert rows[i..][1..] == rows[i + 1..];
      var item := RowToItem(rows[i]);
      if item.Err? {
        return Err(BadRow(item.error));
      }
      out := out + [item.value];
    }
    assert ParseRows(rows[|rows|..]) == Ok([]) && out + [] == out;
    return Ok(out);
  }

  /** Items already read, before what the remaining rows give. */
  ghost function Append(
    items: seq<ExportItem>, rest: Result<seq<ExportItem>, RowProblem>): Result<seq<ExportItem>, RowProblem>
  {
    if rest.Err? then rest else Ok(items + rest.value)
  }

  lemma AppendOne(items: seq<ExportItem>, rows: seq<seq<string>>)
    requires rows != []
    ensures var first := RowToItem(rows[0]);
            Append(items, ParseRows(rows)) ==
              if first.Err? then Err(first.error) else Append(items + [first.value], ParseRows(rows[1..]))
  {
    var first, rest := RowToItem(rows[0]), ParseRows(rows[1..]);
    if first.Ok? && rest.Ok? {
      assert items + ([first.value] + rest.value) == items + [first.value] + rest.value;
    }
  }

  // ------------------------------------------------------------------- round trips

  /** Integers in a row come from 64-bit columns. */
  predicate Storable(it: ExportItem) {
    && FitsInt64(it.priority) && FitsInt64(it.quantityWanted)
    && (it.priceAmountMinor.Some? ==> FitsInt64(it.priceAmountMinor.value))
  }

  function NonBlank(s: Option<string>): Option<string> {
    if s == Some("") then None else s
  }

  /** The item with its empty optional texts made absent. */
  function Normalized(it: ExportItem): ExportItem {
    it.(url := NonBlank(it.url), imageUrl := NonBlank(it.imageUrl), priceCurrency := NonBlank(it.priceCurrency),
        note := NonBlank(it.note), thankYouTemplate := NonBlank(it.thankYouTemplate))
  }

  lemma RowRoundTrip(it: ExportItem)
    requires Storable(it)
    ensures RowToItem(ItemToRow(it)) == Ok(Normalized(it))
  {
    NumberSurvives(it.priority);
    NumberSurvives(it.quantityWanted);
    AmountSurvives(it.priceAmountMinor);
    BoolSurvives(it.allowCobuy);
    var row := ItemToRow(it);
    assert row[3] == AmountText(it.priceAmountMinor) && row[8] == BoolText(it.allowCobuy);
    RowReadsAs(row, it);
  }

  /** A row reads as the item its cells stand for, cell by cell. */
  lemma RowReadsAs(row: seq<string>, it: ExportItem)
    requires |row| == |HEADER| && row[0] == it.name && row[1] == Cell(it.url) && row[2] == Cell(it.imageUrl)
    requires AmountCell(row[3]) == Some(it.priceAmountMinor)
    requires row[4] == Cell(it.priceCurrency) && row[5] == Cell(it.note)
    requires NumberCell(row[6]) == Some(it.priority) && NumberCell(row[7]) == Some(it.quantityWanted)
    requires BoolCell(row[8]) == Some(it.allowCobuy) && row[9] == Cell(it.thankYouTemplate)
    ensures RowToItem(row) == Ok(Normalized(it))
  {
  }

  lemma NumberSurvives(x: int)
    requires FitsInt64(x)
    ensures FormatInt(x) != "" && NumberCell(FormatInt(x)) == Some(x)
  {
    ParseFormat(x);
  }

  lemma AmountSurvives(x: Option<int>)
    requires x.Some? ==> FitsInt64(x.value)
    ensures AmountCell(AmountText(x)) == Some(x)
  {
    if x.Some? {
      ParseFormat(x.value);
    }
  }

  lemma BoolSurvives(b: Option<bool>)
    ensures BoolCell(BoolText(b)) == Some(b)
  {
  }

  /** The trip is exact for an item if and only if it has no empty optional text, and a
      second trip changes nothing more. */
  lemma RowRoundTripExactIff(it: ExportItem)
    requires Storable(it)
    ensures RowToItem(ItemToRow(it)) == Ok(it) <==>
              Some("") !in {it.url, it.imageUrl, it.priceCurrency, it.note, it.thankYouTemplate}
    ensures RowToItem(ItemToRow(Normalized(it))) == Ok(Normalized(it))
  {
    RowRoundTrip(it);
    RowRoundTrip(Normalized(it));
  }

  /** Whatever text a row held, once accepted it is read the same when written again. */
  lemma AcceptedRowSettles(row: seq<string>)
    requires RowToItem(row).Ok?
    ensures Storable(RowToItem(row).value)
    ensures RowToItem(ItemToRow(RowToItem(row).value)) == RowToItem(row)
  {
    RowRoundTrip(RowToItem(row).value);
  }

  function AllNormalized(items: seq<ExportItem>): seq<ExportItem> {
    seq(|items|, i requires 0 <= i < |items| => Normalized(items[i]))
  }

  lemma {:induction false} RowsReadAs(rows: seq<seq<string>>, items: seq<ExportItem>)
    requires |rows| == |items| && forall i :: 0 <= i < |rows| ==> RowToItem(rows[i]) == Ok(items[i])
    ensures ParseRows(rows) == Ok(items)
  {
    if rows != [] {
      RowsReadAs(rows[1..], items[1..]);
      assert RowToItem(rows[0]) == Ok(items[0]);
      assert [items[0]] + items[1..] == items;
    }
  }

  lemma TableRoundTrip(items: seq<ExportItem>)
    requires forall it :: it in items ==> Storable(it)
    ensures ParseTable(Table(items)) == Ok(AllNormalized(items))
  {
    var rows := Table(items)[1..];
    forall i | 0 <= i < |items| ensures RowToItem(rows[i]) == Ok(AllNormalized(items)[i]) {
      RowRoundTrip(items[i]);
    }
    RowsReadAs(rows, AllNormalized(items));
  }

  // --------------------------------------------------------------------- importing

  datatype ItemProblem = NameRequired | PriceIncomplete | PriceNotPositive | PriorityNegative

  function ValidateImportItem(it: ExportItem, list: Id): (r: Result<Item, ItemProblem>)
    ensures r.Ok? <==>
              && !AllSpace(it.name)
              && it.priority >= 0
              && (it.priceAmountMinor.Some? <==> it.priceCurrency.Some?)
              && (it.priceAmountMinor.Some? ==> it.priceAmountMinor.value > 0)
    ensures r.Ok? ==> r.value.list == list && ToExportItem(r.value) == it
    ensures r == Err(NameRequired) <==> AllSpace(it.name)
    ensures r == Err(PriceIncomplete) <==>
              !AllSpace(it.name) && (it.priceAmountMinor.Some? != it.priceCurrency.Some?)
    ensures r == Err(PriorityNegative) ==> it.priority < 0
    ensures r == Err(PriceNotPositive) ==> it.priceAmountMinor.Some? && it.priceAmountMinor.value <= 0
  {
    if TrimSpace(it.name) == "" then Err(NameRequired)
    else if it.priceAmountMinor.None? != it.priceCurrency.None? then Err(PriceIncomplete)
    else if it.priceAmountMinor.Some? && it.priceAmountMinor.value <= 0 then Err(PriceNotPositive)
    else if it.priority < 0 then Err(PriorityNegative)
    else
      var price := if it.priceAmountMinor.Some? then Some(Money(it.priceAmountMinor.value, it.priceCurrency.value))
                   else None;
      Ok(Item(list, it.name, it.url, it.imageUrl, price, it.note, it.priority, it.quantityWanted,
              it.allowCobuy, it.thankYouTemplate))
  }

  /** What storage makes of a new item. */
  function Prep(it: Item): Item {
    it.(quantityWanted := if it.quantityWanted < 1 then 1 else it.quantityWanted)
  }

  /** An item is created with at least one unit, and otherwise as it was written. */
  lemma CreatedUnits(it: Item)
    ensures Prep(it).quantityWanted == (if it.quantityWanted >= 1 then it.quantityWanted else 1)
    ensures Prep(it).(quantityWanted := it.quantityWanted) == it
  {
  }

  datatype RowError = RowError(row: nat, problem: ItemProblem)
  datatype ImportOutcome =
    | FileTooLarge
    | BadFile(problem: FileProblem)
    | TooManyItems
    | Rejected(errors: seq<RowError>)
    | Created(items: seq<Item>)

  type Verdict = Result<Item, ItemProblem>

  function Verdicts(items: seq<ExportItem>, list: Id): seq<Verdict> {
    seq(|items|, i requires 0 <= i < |items| => ValidateImportItem(items[i], list))
  }

  ghost predicate AllOk(verdicts: seq<Verdict>) {
    forall i :: 0 <= i < |verdicts| ==> verdicts[i].Ok?
  }

  /** Whether an import of these items goes through, and what it then creates. */
  ghost predicate Creates(items: seq<ExportItem>, list: Id) {
    |items| <= MAX_IMPORT_ITEMS && AllOk(Verdicts(items, list))
  }

  ghost function CreatedItems(verdicts: seq<Verdict>): seq<Item>
    requires AllOk(verdicts)
  {
    seq(|verdicts|, i requires 0 <= i < |verdicts| => Prep(verdicts[i].value))
  }

  /** Everything is created or nothing is; a rejection names every invalid row once, in
      order, with its first problem. */
  method ImportItems(items: seq<ExportItem>, list: Id) returns (outcome: ImportOutcome)
    ensures outcome.TooManyItems? <==> |items| > MAX_IMPORT_ITEMS
    ensures outcome.Created? <==> Creates(items, list)
    ensures outcome.Created? ==> outcome.items == CreatedItems(Verdicts(items, list))
    ensures outcome.Rejected? ==> outcome.errors != [] && Blames(outcome.errors, Verdicts(items, list))
    ensures !outcome.FileTooLarge? && !outcome.BadFile?
  {
    if |items| > MAX_IMPORT_ITEMS {
      return TooManyItems;
    }
    var toCreate: seq<Item> := [];
    var errors: seq<RowError> := [];
    ghost var verdicts := Verdicts(items, list);
    for i := 0 to |items|
      invariant Blames(errors, verdicts[..i])
      invariant errors == [] ==> Validated(toCreate, verdicts[..i])
    {
      var r := ValidateImportItem(items[i], list);
      assert verdicts[..i + 1] == verdicts[..i] + [r];
      OneMoreRow(errors, toCreate, verdicts[..i], r);
      if r.Err? {
        errors := errors + [RowError(i + 1, r.error)];
      } else {
        toCreate := toCreate + [r.value];
      }
    }
    assert verdicts[..|items|] == verdicts;
    NoErrorsIff(errors, toCreate, verdicts);
    if |errors| > 0 {
      return Rejected(errors);
    }
    return Created(seq(|toCreate|, i requires 0 <= i < |toCreate| => Prep(toCreate[i])));
  }

  /** Whether an import of a file of that size, with these records, goes through. */
  ghost predicate FileCreates(size: nat, rows: seq<seq<string>>, list: Id) {
    size <= MAX_IMPORT_BYTES && ParseTable(rows).Ok? && Creates(ParseTable(rows).value, list)
  }

  /** The whole upload: a file above the size limit is refused unread, then one whose
      records do not make a table of items, then too many or invalid items. */
  method ImportFile(size: nat, rows: seq<seq<string>>, list: Id) returns (outcome: ImportOutcome)
    ensures outcome.FileTooLarge? <==> size > MAX_IMPORT_BYTES
    ensures !outcome.FileTooLarge? ==>
              forall problem :: outcome == BadFile(problem) <==> ParseTable(rows) == Err(problem)
    ensures outcome.TooManyItems? <==>
              size <= MAX_IMPORT_BYTES && ParseTable(rows).Ok? && |ParseTable(rows).value| > MAX_IMPORT_ITEMS
    ensures outcome.Created? <==> FileCreates(size, rows, list)
    ensures outcome.Created? ==> outcome.items == CreatedItems(Verdicts(ParseTable(rows).value, list))
    ensures outcome.Rejected? ==>
              && ParseTable(rows).Ok? && outcome.errors != []
              && Blames(outcome.errors, Verdicts(ParseTable(rows).value, list))
  {
    if size > MAX_IMPORT_BYTES {
      return FileTooLarge;
    }
    var items := ParseImportCSV(rows);
    if items.Err? {
      return BadFile(items.error);
    }
    outcome := ImportItems(items.value, list);
  }

  ghost predicate Validated(created: seq<Item>, verdicts: seq<Verdict>) {
    |created| == |verdicts| && forall i :: 0 <= i < |verdicts| ==> verdicts[i] == Ok(created[i])
  }

  /** The errors are those of the invalid rows, numbered from 1, in order. */
  ghost predicate Blames(errors: seq<RowError>, verdicts: seq<Verdict>) {
    && (forall e :: e in errors ==> 1 <= e.row <= |verdicts| && verdicts[e.row - 1] == Err(e.problem))
    && (forall a, b :: 0 <= a < b < |errors| ==> errors[a].row < errors[b].row)
    && (forall i :: 0 <= i < |verdicts| ==> verdicts[i].Ok? || RowError(i + 1, verdicts[i].error) in errors)
  }

  lemma NoErrorsIff(errors: seq<RowError>, created: seq<Item>, verdicts: seq<Verdict>)
    requires Blames(errors, verdicts) && (errors == [] ==> Validated(created, verdicts))
    ensures errors == [] <==> AllOk(verdicts)
    ensures errors == [] ==>
              CreatedItems(verdicts) == seq(|created|, i requires 0 <= i < |created| => Prep(created[i]))
  {
    if errors != [] {
      assert errors[0] in errors;
    }
  }

  lemma OneMoreRow(errors: seq<RowError>, created: seq<Item>, verdicts: seq<Verdict>, r: Verdict)
    requires Blames(errors, verdicts) && (errors == [] ==> Validated(created, verdicts))
    ensures Blames(if r.Err? then errors + [RowError(|verdicts| + 1, r.error)] else errors, verdicts + [r])
    ensures r.Ok? && errors == [] ==> Validated(created + [r.value], verdicts + [r])
  {
    if r.Err? {
      OneMoreError(errors, verdicts, r);
    }
  }

  lemma OneMoreError(errors: seq<RowError>, verdicts: seq<Verdict>, r: Verdict)
    requires Blames(errors, verdicts) && r.Err?
    ensures Blames(errors + [RowError(|verdicts| + 1, r.error)], verdicts + [r])
  {
    var e := RowError(|verdicts| + 1, r.error);
    assert forall x :: x in errors + [e] <==> x in errors || x == e;
    assert forall k :: 0 <= k < |errors| ==> errors[k] in errors;
  }

  // ------------------------------------------------------------ export, then import

  /** An item whose export can be imported. */
  predicate Importable(it: Item) {
    && !AllSpace(it.name) && it.priority >= 0
    && (it.price.Some? ==> it.price.value.amountMinor > 0 && it.price.value.currency != "")
  }

  /** An item as storage holds it. */
  predicate Stored(it: Item) {
    Storable(ToExportItem(it)) && it.quantityWanted >= 1
  }

  // A CSV writer keeps the text of a cell as it is; a CSV reader drops each carriage
  // return that stands directly before a newline.

  function Newlines(s: string): string {
    if |s| < 2 then s
    else if s[0] == '\r' && s[1] == '\n' then Newlines(s[1..])
    else [s[0]] + Newlines(s[1..])
  }

  predicate HasCrLf(s: string) {
    exists i :: 0 <= i < |s| - 1 && s[i] == '\r' && s[i + 1] == '\n'
  }

  lemma {:induction false} NewlinesShorten(s: string)
    ensures |Newlines(s)| <= |s| && (Newlines(s) == "" <==> s == "")
    ensures AllSpace(Newlines(s)) <==> AllSpace(s)
  {
    if |s| >= 2 {
      NewlinesShorten(s[1..]);
      SpaceFirst(s[0], s[1..]);
      SpaceFirst(s[0], Newlines(s[1..]));
      assert s == [s[0]] + s[1..];
    }
  }

  lemma SpaceFirst(first: char, rest: string)
    ensures AllSpace([first] + rest) <==> IsSpace(first) && AllSpace(rest)
  {
    var s := [first] + rest;
    assert s[0] == first && s[1..] == rest;
    assert forall i :: 0 <= i < |rest| ==> rest[i] == s[i + 1];
  }

  /** A text comes back as it was if and only if no carriage return in it stands before
      a newline. */
  lemma {:induction false} NewlinesSameIff(s: string)
    ensures Newlines(s) == s <==> !HasCrLf(s)
  {
    if |s| >= 2 {
      NewlinesSameIff(s[1..]);
      NewlinesShorten(s[1..]);
      if s[0] != '\r' || s[1] != '\n' {
        assert HasCrLf(s[1..]) <==> HasCrLf(s) by {
          assert forall i :: 0 <= i < |s| - 1 ==> s[1..][i] == s[i + 1];
          if HasCrLf(s) {
            var i :| 0 <= i < |s| - 1 && s[i] == '\r' && s[i + 1] == '\n';
            assert s[1..][i - 1] == '\r' && s[1..][i] == '\n';
          }
          if HasCrLf(s[1..]) {
            var i :| 0 <= i < |s[1..]| - 1 && s[1..][i] == '\r' && s[1..][i + 1] == '\n';
            assert s[i + 1] == '\r' && s[i + 1 + 1] == '\n';
          }
        }
        assert s == [s[0]] + s[1..] && Newlines(s)[1..] == Newlines(s[1..]);
      }
    }
  }

  /** The records a reader gives for a file written from these. */
  function ReadBack(rows: seq<seq<string>>): seq<seq<string>> {
    seq(|rows|, i requires 0 <= i < |rows| => ReadRow(rows[i]))
  }

  function ReadRow(row: seq<string>): seq<string> {
    seq(|row|, i requires 0 <= i < |row| => Newlines(row[i]))
  }

  function TextRead(s: Option<string>): Option<string> {
    if s.Some? then Some(Newlines(s.value)) else None
  }

  /** The item as its texts come back from a file. */
  function ItemRead(it: ExportItem): ExportItem {
    it.(name := Newlines(it.name), url := TextRead(it.url), imageUrl := TextRead(it.imageUrl),
        priceCurrency := TextRead(it.priceCurrency), note := TextRead(it.note),
        thankYouTemplate := TextRead(it.thankYouTemplate))
  }

  function AllRead(items: seq<ExportItem>): seq<ExportItem> {
    seq(|items|, i requires 0 <= i < |items| => ItemRead(items[i]))
  }

  lemma NumbersRead(x: int)
    ensures Newlines(FormatInt(x)) == FormatInt(x)
  {
    var s := FormatInt(x);
    var digits := FormatNat(if x < 0 then -x else x);
    forall i | 0 <= i < |s| ensures s[i] != '\r' {
      assert x < 0 && i > 0 ==> s[i] == digits[i - 1] && IsDigit(digits[i - 1]);
      assert x >= 0 ==> s[i] == digits[i] && IsDigit(digits[i]);
    }
    NewlinesSameIff(s);
  }

  lemma PlainRead(s: string)
    requires forall i :: 0 <= i < |s| ==> s[i] != '\r'
    ensures Newlines(s) == s
  {
    NewlinesSameIff(s);
  }

  lemma RowRead(it: ExportItem)
    ensures ReadRow(ItemToRow(it)) == ItemToRow(ItemRead(it))
  {
    NumbersRead(it.priority);
    NumbersRead(it.quantityWanted);
    if it.priceAmountMinor.Some? {
      NumbersRead(it.priceAmountMinor.value);
    }
    PlainRead(BoolText(it.allowCobuy));
  }

  lemma TableRead(items: seq<ExportItem>)
    ensures ReadBack(Table(items)) == Table(AllRead(items))
  {
    forall j | 0 <= j < |HEADER| ensures Newlines(HEADER[j]) == HEADER[j] {
      PlainRead(HEADER[j]);
    }
    assert ReadRow(HEADER) == HEADER;
    forall i | 0 <= i < |items| ensures ReadRow(ItemToRow(items[i])) == ItemToRow(ItemRead(items[i])) {
      RowRead(items[i]);
    }
  }

  /** The same catalogue on another list, in texts that come back from a file and with
      empty optional texts made absent. */
  function Copied(it: Item, list: Id): Item {
    Item(list, Newlines(it.name), NonBlank(TextRead(it.url)), NonBlank(TextRead(it.imageUrl)),
         if it.price.Some? then Some(Money(it.price.value.amountMinor, Newlines(it.price.value.currency))) else None,
         NonBlank(TextRead(it.note)), it.priority, it.quantityWanted, it.allowCobuy,
         NonBlank(TextRead(it.thankYouTemplate)))
  }

  /** The row of a stored item is accepted exactly when the item is importable, and then
      gives an item of the same catalogue. */
  lemma ExportThenImport(it: Item, list: Id)
    requires Stored(it)
    ensures RowToItem(ReadRow(ItemToRow(ToExportItem(it)))) == Ok(Normalized(ItemRead(ToExportItem(it))))
    ensures var r := ValidateImportItem(Normalized(ItemRead(ToExportItem(it))), list);
            (r.Ok? <==> Importable(it)) && (r.Ok? ==> Prep(r.value) == Copied(it, list))
  {
    RowRead(ToExportItem(it));
    RowRoundTrip(ItemRead(ToExportItem(it)));
    NewlinesShorten(it.name);
    if it.price.Some? {
      NewlinesShorten(it.price.value.currency);
    }
  }

  /** A copy is the item itself, on the other list, if and only if no text of it holds a
      carriage return before a newline and none of its optional texts is empty. */
  lemma CopyExactIff(it: Item, list: Id)
    requires Importable(it)
    ensures Copied(it, list) == it.(list := list) <==>
              && !HasCrLf(it.name) && (it.price.Some? ==> !HasCrLf(it.price.value.currency))
              && forall text :: Some(text) in {it.url, it.imageUrl, it.note, it.thankYouTemplate} ==>
                   text != "" && !HasCrLf(text)
  {
    NewlinesSameIff(it.name);
    if it.price.Some? {
      NewlinesSameIff(it.price.value.currency);
    }
    TextExactIff(it.url);
    TextExactIff(it.imageUrl);
    TextExactIff(it.note);
    TextExactIff(it.thankYouTemplate);
  }

  lemma TextExactIff(s: Option<string>)
    ensures NonBlank(TextRead(s)) == s <==> (s.Some? ==> s.value != "" && !HasCrLf(s.value))
  {
    if s.Some? {
      NewlinesSameIff(s.value);
      NewlinesShorten(s.value);
    }
  }

  /** What an export of the list's items holds. */
  function Exported(items: seq<Item>): seq<ExportItem> {
    var n := if |items| < MAX_EXPORT_ITEMS then |items| else MAX_EXPORT_ITEMS;
    seq(n, i requires 0 <= i < n => ToExportItem(items[i]))
  }

  /** An export holds the first 2000 items of the list, in order. */
  lemma ExportHolds(items: seq<Item>)
    ensures |Exported(items)| == if |items| <= 2000 then |items| else 2000
    ensures forall i :: 0 <= i < |Exported(items)| ==> Exported(items)[i] == ToExportItem(items[i])
  {
  }

  /** A whole list: importing its exported file creates the list's items again if and
      only if there are at most 500, each is importable, and the file, of the size
      `bytes` gives it, has at most 1 MiB. */
  lemma CopyList(items: seq<Item>, list: Id, bytes: seq<seq<string>> -> nat)
    requires forall i :: 0 <= i < |items| ==> Stored(items[i])
    ensures var file := Table(Exported(items));
            && ParseTable(ReadBack(file)).Ok?
            && (FileCreates(bytes(file), ReadBack(file), list) <==>
                  && |items| <= 500 && bytes(file) <= 1_048_576
                  && forall i :: 0 <= i < |items| ==> Importable(items[i]))
            && (FileCreates(bytes(file), ReadBack(file), list) ==>
                  CreatedItems(Verdicts(ParseTable(ReadBack(file)).value, list)) ==
                    seq(|items|, i requires 0 <= i < |items| => Copied(items[i], list)))
  {
    var exported := Exported(items);
    TableRead(exported);
    TableRoundTrip(AllRead(exported));
    var read := AllNormalized(AllRead(exported));
    forall i | 0 <= i < |exported|
      ensures var r := Verdicts(read, list)[i];
              (r.Ok? <==> Importable(items[i])) && (r.Ok? ==> Prep(r.value) == Copied(items[i], list))
    {
      ExportThenImport(items[i], list);
    }
  }

  /** An export that no list can take back: 501 items, each importable by itself. */
  lemma LongListNotCopied(list: Id, bytes: seq<seq<string>> -> nat) returns (items: seq<Item>)
    ensures |items| == 501 && forall i :: 0 <= i < |items| ==> Stored(items[i]) && Importable(items[i])
    ensures var file := Table(Exported(items)); !FileCreates(bytes(file), ReadBack(file), list)
  {
    var it := Item(0, "a", None, None, None, None, 0, 1, None, None);
    assert !IsSpace(it.name[0]);
    items := seq(501, i => it);
    CopyList(items, list, bytes);
  }

  /** A file is no shorter than any text in it. */
  ghost predicate CountsCells(bytes: seq<seq<string>> -> nat) {
    forall rows: seq<seq<string>>, i: nat, j: nat :: i < |rows| && j < |rows[i]| ==> |rows[i][j]| <= bytes(rows)
  }

  /** Nor can any list take back a single importable item whose note is longer than the
      size limit. */
  lemma LongNoteNotCopied(list: Id, bytes: seq<seq<string>> -> nat) returns (it: Item)
    requires CountsCells(bytes)
    ensures Stored(it) && Importable(it)
    ensures var file := Table(Exported([it])); !FileCreates(bytes(file), ReadBack(file), list)
  {
    var note := seq(MAX_IMPORT_BYTES + 1, i => 'a');
    it := Item(0, "a", None, None, None, Some(note), 0, 1, None, None);
    assert !IsSpace(it.name[0]);
    var file := Table(Exported([it]));
    assert file[1][5] == note;
    CopyList([it], list, bytes);
  }
}
