/** What the scraper reads off the portal's pages (app.py): the hidden form
    fields of the captcha page, and, on the result page, the vehicle
    information, the challan rows and the grand total of the `rtable` table.
    Browser lookups become observations: a lookup that would raise is a
    `None` or an `Unreadable` here. */
module Scraper {
  import opened Wrappers
  import opened Text

  // ---------------------------------------------------------------------
  // Hidden form fields of the captcha page (get_captcha)
  // ---------------------------------------------------------------------

  /** An `<input type="hidden">`: its `name` and `value` attributes, each
      absent when the browser reports `None`. */
  datatype HiddenInput = HiddenInput(name: Option<string>, value: Option<string>)

  /** An input is collected only when its name is present and non-empty. */
  predicate HasName(h: HiddenInput) {
    h.name.Some? && h.name.value != ""
  }

  /** A missing or empty value is stored as the empty string. */
  function StoredValue(h: HiddenInput): string {
    if h.value.Some? then h.value.value else ""
  }

  /** The hidden-field dictionary built by walking the inputs in page order;
      a later input with the same name overwrites an earlier one. */
  function CollectHiddenFields(inputs: seq<HiddenInput>): (r: map<string, string>)
    ensures forall k | k in r :: k != "" && exists i | 0 <= i < |inputs| :: inputs[i].name == Some(k)
    ensures forall i | 0 <= i < |inputs| && HasName(inputs[i]) :: inputs[i].name.value in r
    decreases |inputs|
  {
    if inputs == [] then map[]
    else
      var n := |inputs| - 1;
      var m := CollectHiddenFields(inputs[..n]);
      assert forall i | 0 <= i < n :: inputs[..n][i] == inputs[i];
      var h := inputs[n];
      if HasName(h) then m[h.name.value := StoredValue(h)] else m
  }

  /** Last one wins: the value stored under a name is the value of the last
      input carrying that name. */
  lemma {:induction false} HiddenFieldLastWins(inputs: seq<HiddenInput>, i: nat)
    requires i < |inputs| && HasName(inputs[i])
    requires forall j | i < j < |inputs| :: inputs[j].name != inputs[i].name
    ensures CollectHiddenFields(inputs)[inputs[i].name.value] == StoredValue(inputs[i])
    decreases |inputs|
  {
    var n := |inputs| - 1;
    var prefix := inputs[..n];
    var m := CollectHiddenFields(prefix);
    var last := inputs[n];
    assert CollectHiddenFields(inputs) == if HasName(last) then m[last.name.value := StoredValue(last)] else m;
    if i < n {
      assert prefix[i] == inputs[i];
      forall j | i < j < n
        ensures prefix[j].name != prefix[i].name
      {
        assert prefix[j] == inputs[j];
      }
      HiddenFieldLastWins(prefix, i);
      assert last.name != inputs[i].name;
    }
  }

  // ---------------------------------------------------------------------
  // The challan table (process_challan_submission)
  // ---------------------------------------------------------------------

  /** A `td` element: its text, the text of its first `div` descendant and the
      text of the first cell of a table nested in it (absent when the lookup
      would raise). */
  datatype Cell = Cell(text: string, div: Option<string>, nestedFirstCell: Option<string>)

  /** A row holding the `manualErr` checkbox: its `td` elements could not be
      listed, or they were. */
  datatype ChallanRow = Unreadable | Cells(cells: seq<Cell>)

  /** One violation as returned to the caller: the twelve fields of a challan
      record. */
  datatype Challan = Challan(
    sno: string,
    unitName: string,
    echallanNo: string,
    date: string,
    time: string,
    place: string,
    psLimits: string,
    violation: string,
    fineAmount: string,
    userCharges: string,
    totalFine: string,
    hasImage: bool)

  /** A challan row needs this many cells to be read. */
  const MinCells := 16

  /** The text that marks a challan with a photograph. */
  const ImageMarker := "Click For Image"

  /** The nested lookups a record needs (the `div`s of cells 6 and 7, the nested
      table of cell 8) all succeed. */
  predicate LookupsSucceed(cells: seq<Cell>)
    requires |cells| >= MinCells
  {
    cells[6].div.Some? && cells[7].div.Some? && cells[8].nestedFirstCell.Some?
  }

  /** The row is kept: it is readable, wide enough, and its lookups succeed. */
  predicate Keeps(row: ChallanRow) {
    row.Cells? && |row.cells| >= MinCells && LookupsSucceed(row.cells)
  }

  /** Reads one challan row; `None` when the row is skipped, either because it
      has fewer than 16 cells or because a lookup in it raised. */
  function ExtractRow(row: ChallanRow): (r: Option<Challan>)
    ensures r.Some? <==> Keeps(row)
    ensures r.Some? ==> (r.value.hasImage <==> Contains(row.cells[15].text, ImageMarker))
  {
    if !Keeps(row) then None
    else
      var c := row.cells;
      Some(Challan(
        sno := Strip(c[0].text),
        unitName := Strip(c[2].text),
        echallanNo := Strip(c[3].text),
        date := Strip(c[4].text),
        time := Strip(c[5].text),
        place := Strip(c[6].div.value),
        psLimits := Strip(c[7].div.value),
        violation := Strip(c[8].nestedFirstCell.value),
        fineAmount := Strip(c[12].text),
        userCharges := Strip(c[13].text),
        totalFine := Strip(c[14].text),
        hasImage := Contains(c[15].text, ImageMarker)))
  }

  /** Every text field of an extracted record is trimmed. */
  predicate FieldsTrimmed(c: Challan) {
    && Trimmed(c.sno) && Trimmed(c.unitName) && Trimmed(c.echallanNo)
    && Trimmed(c.date) && Trimmed(c.time) && Trimmed(c.place) && Trimmed(c.psLimits)
    && Trimmed(c.violation) && Trimmed(c.fineAmount) && Trimmed(c.userCharges)
    && Trimmed(c.totalFine)
  }

  /** Two rows agree on every cell a record is read from: cells 0, 2 to 8 and
      12 to 15. */
  predicate SameReadCells(a: seq<Cell>, b: seq<Cell>)
    requires |a| >= MinCells && |b| >= MinCells
  {
    && a[0] == b[0]
    && (forall k | 2 <= k <= 8 :: a[k] == b[k])
    && (forall k | 12 <= k <= 15 :: a[k] == b[k])
  }

  /** Cells 1, 9, 10, 11 and anything past cell 15 play no part: two wide rows
      that agree on the read cells give the same record. */
  lemma ExtractRowReadsOnlyNamedCells(a: seq<Cell>, b: seq<Cell>)
    requires |a| >= MinCells && |b| >= MinCells && SameReadCells(a, b)
    ensures ExtractRow(Cells(a)) == ExtractRow(Cells(b))
  {
    assert a[6] == b[6] && a[7] == b[7] && a[8] == b[8];
    assert a[12] == b[12] && a[13] == b[13] && a[14] == b[14] && a[15] == b[15];
  }

  /** The record of a kept row carries the stripped text of each named cell. */
  lemma ExtractRowFields(cells: seq<Cell>)
    requires Keeps(Cells(cells))
    ensures ExtractRow(Cells(cells)).Some?
    ensures var c := ExtractRow(Cells(cells)).value;
      && FieldsTrimmed(c)
      && c.sno == Strip(cells[0].text) && c.unitName == Strip(cells[2].text)
      && c.echallanNo == Strip(cells[3].text) && c.date == Strip(cells[4].text)
      && c.time == Strip(cells[5].text) && c.place == Strip(cells[6].div.value)
      && c.psLimits == Strip(cells[7].div.value)
      && c.violation == Strip(cells[8].nestedFirstCell.value)
      && c.fineAmount == Strip(cells[12].text) && c.userCharges == Strip(cells[13].text)
      && c.totalFine == Strip(cells[14].text)
  {
  }

  /** Applies `f` to every element in order and keeps the present results. */
  function FilterMap<A, B>(f: A -> Option<B>, xs: seq<A>): (r: seq<B>)
    ensures |r| <= |xs|
    decreases |xs|
  {
    if xs == [] then []
    else
      var rest := FilterMap(f, xs[1..]);
      match f(xs[0])
      case Some(y) => [y] + rest
      case None => rest
  }

  /** Filtering and mapping a concatenation works list by list. */
  lemma {:induction false} FilterMapAppend<A, B>(f: A -> Option<B>, a: seq<A>, b: seq<A>)
    ensures FilterMap(f, a + b) == FilterMap(f, a) + FilterMap(f, b)
    decreases |a|
  {
    if a == [] {
      assert a + b == b;
    } else {
      assert (a + b)[0] == a[0];
      assert (a + b)[1..] == a[1..] + b;
      FilterMapAppend(f, a[1..], b);
    }
  }

  /** On one element, FilterMap keeps the present result or nothing. */
  lemma FilterMapSingle<A, B>(f: A -> Option<B>, x: A)
    ensures FilterMap(f, [x]) == (if f(x).Some? then [f(x).value] else [])
  {
    assert [x][1..] == [];
  }

  /** The records of the kept rows, in row order. */
  function ExtractChallans(rows: seq<ChallanRow>): (r: seq<Challan>)
    ensures |r| <= |rows|
  {
    FilterMap(ExtractRow, rows)
  }

  /** Row extraction is local: the records of a concatenation of row lists are
      the records of each list, concatenated. */
  lemma ExtractChallansAppend(a: seq<ChallanRow>, b: seq<ChallanRow>)
    ensures ExtractChallans(a + b) == ExtractChallans(a) + ExtractChallans(b)
  {
    FilterMapAppend(ExtractRow, a, b);
  }

  /** A single row yields its own record, or nothing. */
  lemma ExtractChallansSingle(row: ChallanRow)
    ensures ExtractChallans([row]) == (if Keeps(row) then [ExtractRow(row).value] else [])
  {
    FilterMapSingle(ExtractRow, row);
  }

  /** A skipped row leaves the records of all other rows as they are. */
  lemma ExtractChallansSkip(a: seq<ChallanRow>, row: ChallanRow, b: seq<ChallanRow>)
    requires !Keeps(row)
    ensures ExtractChallans(a + [row] + b) == ExtractChallans(a + b)
  {
    ExtractChallansAppend(a + [row], b);
    ExtractChallansAppend(a, [row]);
    ExtractChallansAppend(a, b);
    ExtractChallansSingle(row);
  }

  /** A kept row's record sits between the records of the rows before it and
      those of the rows after it. */
  lemma {:induction false} ExtractChallansKeeps(rows: seq<ChallanRow>, i: nat)
    requires i < |rows| && Keeps(rows[i])
    ensures ExtractChallans(rows)
         == ExtractChallans(rows[..i]) + [ExtractRow(rows[i]).value] + ExtractChallans(rows[i + 1..])
  {
    var pre, row, post := rows[..i], rows[i], rows[i + 1..];
    assert rows == (pre + [row]) + post;
    ExtractChallansAppend(pre + [row], post);
    ExtractChallansAppend(pre, [row]);
    ExtractChallansSingle(row);
  }

  /** The number of kept rows. */
  function KeptCount(rows: seq<ChallanRow>): nat {
    if rows == [] then 0 else (if Keeps(rows[0]) then 1 else 0) + KeptCount(rows[1..])
  }

  /** One record per kept row: no kept row is lost and none is duplicated. */
  lemma {:induction false} ExtractChallansCount(rows: seq<ChallanRow>)
    ensures |ExtractChallans(rows)| == KeptCount(rows)
    decreases |rows|
  {
    if rows != [] {
      ExtractChallansCount(rows[1..]);
      assert ExtractChallans(rows) == FilterMap(ExtractRow, rows);
      assert ExtractRow(rows[0]).Some? <==> Keeps(rows[0]);
    }
  }

  /** The row loop of `process_challan_submission`: reads the rows in order,
      appending the record of every row that is kept. */
  method ParseChallanRows(rows: seq<ChallanRow>) returns (challans: seq<Challan>)
    ensures challans == ExtractChallans(rows)
  {
    challans := [];
    var i := 0;
    while i < |rows|
      invariant 0 <= i <= |rows|
      invariant challans == ExtractChallans(rows[..i])
    {
      ExtractChallansAppend(rows[..i], [rows[i]]);
      ExtractChallansSingle(rows[i]);
      assert rows[..i + 1] == rows[..i] + [rows[i]];
      var r := ExtractRow(rows[i]);
      if r.Some? {
        challans := challans + [r.value];
      }
      i := i + 1;
    }
    assert rows[..i] == rows;
  }

  // ---------------------------------------------------------------------
  // Grand total and vehicle information
  // ---------------------------------------------------------------------

  /** The three aggregates of the "Grand Total" row. */
  datatype GrandTotal = GrandTotal(fineAmount: string, userCharges: string, totalFine: string)

  /** Reads the grand total from the fourth, third and second cells counted
      from the end of the "Grand Total" row; `None` when there is no such row
      or it has fewer than four cells (the negative index would raise). */
  function GrandTotalOf(row: Option<seq<Cell>>): (r: Option<GrandTotal>)
    ensures r.None? <==> row.None? || |row.value| < 4
    ensures r.Some? ==>
              var c := row.value;
              r.value == GrandTotal(Strip(c[|c| - 4].text), Strip(c[|c| - 3].text), Strip(c[|c| - 2].text))
  {
    match row
    case None => None
    case Some(cells) =>
      var n := |cells|;
      if n < 4 then None
      else Some(GrandTotal(Strip(cells[n - 4].text), Strip(cells[n - 3].text), Strip(cells[n - 2].text)))
  }

  /** The grand total depends only on the last four cells of the row. */
  lemma GrandTotalReadsTail(prefix: seq<Cell>, tail: seq<Cell>)
    requires |tail| >= 4
    ensures GrandTotalOf(Some(prefix + tail)) == GrandTotalOf(Some(tail))
  {
    var n := |prefix + tail|;
    assert (prefix + tail)[n - 4] == tail[|tail| - 4];
    assert (prefix + tail)[n - 3] == tail[|tail| - 3];
    assert (prefix + tail)[n - 2] == tail[|tail| - 2];
  }

  /** The very last cell of the row is never read. */
  lemma GrandTotalIgnoresLastCell(cells: seq<Cell>, x: Cell, y: Cell)
    requires |cells| >= 3
    ensures GrandTotalOf(Some(cells + [x])) == GrandTotalOf(Some(cells + [y]))
  {
    var n := |cells| + 1;
    assert (cells + [x])[n - 4] == (cells + [y])[n - 4];
    assert (cells + [x])[n - 3] == (cells + [y])[n - 3];
    assert (cells + [x])[n - 2] == (cells + [y])[n - 2];
  }

  /** The `vehicle_info` dictionary: each key present or absent. */
  datatype VehicleInfo = VehicleInfo(vehicleNumber: Option<string>, ownerName: Option<string>)

  /** The first row of the table: absent, or present with the text of the `div`
      holding the registration number and of the `div` holding the owner's
      name, each absent when its lookup would raise. */
  datatype FirstRow = NoFirstRow | FirstRow(vehicleDiv: Option<string>, ownerDiv: Option<string>)

  /** Vehicle information read from the first row: both texts when both
      lookups succeed, the submitted number alone when either fails, and an
      empty dictionary when the table has no first row. */
  function VehicleInfoOf(first: FirstRow, submitted: string): (r: VehicleInfo)
    ensures r.vehicleNumber.None? <==> first.NoFirstRow?
    ensures r.ownerName.Some? <==> first.FirstRow? && first.vehicleDiv.Some? && first.ownerDiv.Some?
    ensures first.FirstRow? && r.ownerName.None? ==> r.vehicleNumber == Some(submitted)
    ensures r.ownerName.Some? ==> r.vehicleNumber == Some(Strip(first.vehicleDiv.value)) && r.ownerName == Some(Strip(first.ownerDiv.value))
  {
    match first
    case NoFirstRow => VehicleInfo(None, None)
    case FirstRow(v, o) =>
      if v.Some? && o.Some? then VehicleInfo(Some(Strip(v.value)), Some(Strip(o.value)))
      else VehicleInfo(Some(submitted), None)
  }
}
