/**
 * The decision logic of the feedback table (frontend/src/components/FeedbackTable.tsx):
 * resolving a column's dotted path in a row, the rows of the current page,
 * the pagination count, what each cell shows, and the page state the two
 * pagination handlers update.
 *
 * A JavaScript number that may be NaN is an `Option<int>`, None for NaN: the
 * page size comes from parseInt and can be NaN; pages come from the pagination
 * control and are integers.
 */
module FeedbackTable {
  import opened JsValues
  import opened JsStrings

  // ------------------------------------------------------------ columns

  datatype Column = Column(id: string, heading: string)

  const ImageColumnId := "imageUrl"
  const ProgramExperienceGroup := "Program Experience"
  const SatisfactionQuestion := "How satisfied are you?"
  const SatisfactionColumnId := ProgramExperienceGroup + "." + SatisfactionQuestion
  const NotAvailable := "N/A"

  /** The columns of lines 81-88, in display order. */
  const Columns: seq<Column> := [
    Column("Program", "Program"),
    Column("Program Date", "Date"),
    Column("Name", "Participant"),
    Column("Room No", "Room"),
    Column(SatisfactionColumnId, "Satisfaction"),
    Column(ImageColumnId, "Form Image")]

  // ------------------------------------------------------------ getNestedValue

  /** One step of the reduce: `acc && acc[part]`. */
  function Step(acc: Option<Json>, part: string): Option<Json> {
    if Falsy(acc) then acc else Member(acc.value, part)
  }

  /** `parts.reduce(step, acc)`, left to right. */
  function FoldPath(acc: Option<Json>, parts: seq<string>): Option<Json>
    decreases |parts|
  {
    if parts == [] then acc else FoldPath(Step(acc, parts[0]), parts[1..])
  }

  /** `getNestedValue(obj, path)` (lines 90-92). */
  function GetNestedValue(obj: Json, path: string): Option<Json> {
    FoldPath(Some(obj), Split(path, '.'))
  }

  /** The fold stops at a falsy value and returns it, whatever the remaining parts. */
  lemma {:induction false} FoldStopsAtFalsy(acc: Option<Json>, parts: seq<string>)
    requires Falsy(acc)
    ensures FoldPath(acc, parts) == acc
    decreases |parts|
  {
    if parts != [] {
      FoldStopsAtFalsy(acc, parts[1..]);
    }
  }

  /** A dot-free last part takes one step. */
  lemma SingleSegmentPathFrom(acc: Option<Json>, part: string)
    requires '.' !in part
    ensures FoldPath(acc, Split(part, '.')) == Step(acc, part)
  {
    SplitWithoutSeparator(part, '.');
    assert [part][1..] == [];
  }

  /** A path without a dot reads the property of that name. */
  lemma SingleSegmentPath(obj: Json, path: string)
    requires '.' !in path
    ensures GetNestedValue(obj, path) == Step(Some(obj), path)
    ensures obj.Obj? ==> GetNestedValue(obj, path) == Lookup(obj.props, path)
  {
    SingleSegmentPathFrom(Some(obj), path);
  }

  /**
   * A path `a.b` with no dot in a reads a, then continues with b on its value,
   * unless that value is falsy, which is the result.
   */
  lemma NestedPath(obj: Json, a: string, b: string)
    requires '.' !in a
    ensures GetNestedValue(obj, a + "." + b) == FoldPath(Step(Some(obj), a), Split(b, '.'))
    ensures Falsy(Step(Some(obj), a)) ==> GetNestedValue(obj, a + "." + b) == Step(Some(obj), a)
  {
    SplitAtFirstSeparator(a, b, '.');
    assert Split(a + "." + b, '.') == [a] + Split(b, '.');
    if Falsy(Step(Some(obj), a)) {
      FoldStopsAtFalsy(Step(Some(obj), a), Split(b, '.'));
    }
  }

  /**
   * The satisfaction column reads "How satisfied are you?" inside the row's
   * "Program Experience" object, or that object itself when it is falsy.
   */
  lemma SatisfactionResolves(row: Props)
    ensures GetNestedValue(Obj(row), SatisfactionColumnId) ==
              var group := Lookup(row, ProgramExperienceGroup);
              if Falsy(group) then group else Member(group.value, SatisfactionQuestion)
  {
    var a := ProgramExperienceGroup;
    var b := SatisfactionQuestion;
    assert '.' !in a;
    assert '.' !in b;
    NestedPath(Obj(row), a, b);
    SingleSegmentPathFrom(Step(Some(Obj(row)), a), b);
  }

  // ------------------------------------------------------------ the page

  /** `slice`'s treatment of an index: NaN is 0, a negative index counts from the end, both clamp. */
  function SliceIndex(x: Option<int>, len: nat): (r: nat)
    ensures r <= len
    ensures x.Some? && 0 <= x.value <= len ==> r == x.value
  {
    match x
    case None => 0
    case Some(n) =>
      if n < 0 then (if len + n < 0 then 0 else len + n)
      else if n > len then len
      else n
  }

  /** `s.slice(start, end)`. */
  function Slice<T>(s: seq<T>, start: Option<int>, end: Option<int>): (r: seq<T>)
    ensures |r| <= |s|
  {
    var from := SliceIndex(start, |s|);
    var to := SliceIndex(end, |s|);
    if from < to then s[from..to] else []
  }

  /** Number multiplication and addition, NaN absorbing. */
  function Times(a: int, b: Option<int>): Option<int> {
    if b.Some? then Some(a * b.value) else None
  }

  function Plus(a: Option<int>, b: Option<int>): Option<int> {
    if a.Some? && b.Some? then Some(a.value + b.value) else None
  }

  /**
   * `data?.slice(page * rowsPerPage, page * rowsPerPage + rowsPerPage)` (lines
   * 115-116); undefined data renders no rows.
   */
  function VisibleRows<T>(data: Option<seq<T>>, page: int, rowsPerPage: Option<int>): seq<T> {
    match data
    case None => []
    case Some(rows) =>
      var start := Times(page, rowsPerPage);
      Slice(rows, start, Plus(start, rowsPerPage))
  }

  function Min(a: int, b: int): int {
    if a <= b then a else b
  }

  /**
   * With a page size n > 0 and a page p >= 0 the rows shown are the contiguous
   * run from p * n up to (p + 1) * n or the end, in order, at most n of them.
   */
  lemma {:induction false} PageSlice<T>(rows: seq<T>, page: int, n: int)
    requires page >= 0 && n > 0
    ensures Min(page * n, |rows|) <= Min(page * n + n, |rows|)
    ensures VisibleRows(Some(rows), page, Some(n)) == rows[Min(page * n, |rows|)..Min(page * n + n, |rows|)]
    ensures |VisibleRows(Some(rows), page, Some(n))| <= n
  {
    assert page * n >= 0;
  }

  /** Every row is on page i / n, at position i % n. */
  lemma {:induction false} RowOnItsPage<T>(rows: seq<T>, n: int, i: int)
    requires n > 0 && 0 <= i < |rows|
    ensures i % n < |VisibleRows(Some(rows), i / n, Some(n))|
    ensures VisibleRows(Some(rows), i / n, Some(n))[i % n] == rows[i]
  {
    var p := i / n;
    assert p * n + i % n == i;
    assert p >= 0;
    PageSlice(rows, p, n);
  }

  /** A NaN page size shows no rows. */
  lemma NaNPageSizeShowsNothing<T>(rows: seq<T>, page: int)
    ensures VisibleRows(Some(rows), page, None) == []
  {
  }

  /** `data?.length || 0` (line 138). */
  function PaginationCount<T>(data: Option<seq<T>>): (count: nat)
    ensures data.Some? ==> count == |data.value|
    ensures data.None? ==> count == 0
  {
    if data.Some? then |data.value| else 0
  }

  /** A page shows rows exactly when it starts before the count the pagination control is given. */
  lemma {:induction false} PageShownIffBeforeCount<T>(data: Option<seq<T>>, page: int, n: int)
    requires page >= 0 && n > 0
    ensures |VisibleRows(data, page, Some(n))| > 0 <==> page * n < PaginationCount(data)
  {
    if data.Some? {
      PageSlice(data.value, page, n);
    }
  }

  /** The rows of pages 0 to k - 1, one after the other. */
  function FirstPages<T>(rows: seq<T>, n: int, k: nat): seq<T> {
    if k == 0 then [] else FirstPages(rows, n, k - 1) + VisibleRows(Some(rows), k - 1, Some(n))
  }

  /** The first k pages are the first k * n rows, or all of them. */
  lemma {:induction false} FirstPagesArePrefix<T>(rows: seq<T>, n: int, k: nat)
    requires n > 0
    ensures FirstPages(rows, n, k) == rows[..Min(k * n, |rows|)]
  {
    if k > 0 {
      FirstPagesArePrefix(rows, n, k - 1);
      PageSlice(rows, k - 1, n);
      NextPageStart(k - 1, n);
      PrefixThenSlice(rows, Min((k - 1) * n, |rows|), Min(k * n, |rows|));
    }
  }

  lemma NextPageStart(p: nat, n: int)
    requires n > 0
    ensures p * n >= 0
    ensures p * n + n == (p + 1) * n
  {
  }

  lemma PrefixThenSlice<T>(s: seq<T>, a: int, b: int)
    requires 0 <= a <= b <= |s|
    ensures s[..a] + s[a..b] == s[..b]
  {
  }

  /**
   * The pages the control offers for the count, ceil(count / n) of them, show
   * every row once, in order.
   */
  lemma PagesCoverRows<T>(rows: seq<T>, n: int)
    requires n > 0
    ensures FirstPages(rows, n, (PaginationCount(Some(rows)) + n - 1) / n) == rows
  {
    var c := |rows|;
    var k := (c + n - 1) / n;
    assert k * n + (c + n - 1) % n == c + n - 1;
    assert k * n >= c;
    FirstPagesArePrefix(rows, n, k);
  }

  // ------------------------------------------------------------ cells

  /** A link to the form image, or a value shown as text. */
  datatype Cell = ImageLink(href: Option<Json>) | TextCell(shown: Json)

  /** Lines 121-126: the image column links to `row.imageUrl`; any other shows the value or 'N/A'. */
  function CellFor(row: Json, columnId: string): Cell {
    if columnId == ImageColumnId then ImageLink(Member(row, ImageColumnId))
    else
      var v := GetNestedValue(row, columnId);
      TextCell(if Falsy(v) then Str(NotAvailable) else v.value)
  }

  /** A text cell is handed a truthy value: the resolved value when truthy and 'N/A' otherwise. */
  lemma CellShowsValueOrNotAvailable(row: Json, columnId: string)
    requires columnId != ImageColumnId
    ensures CellFor(row, columnId).TextCell?
    ensures !Falsy(Some(CellFor(row, columnId).shown))
    ensures !Falsy(GetNestedValue(row, columnId)) <==>
              Some(CellFor(row, columnId).shown) == GetNestedValue(row, columnId)
    ensures Falsy(GetNestedValue(row, columnId)) ==> CellFor(row, columnId).shown == Str(NotAvailable)
  {
    var v := GetNestedValue(row, columnId);
    if Falsy(v) {
      assert Str(NotAvailable) != Str("");
    }
  }

  /** The cells of one row, one per column in order. */
  function RenderRow(row: Json): (cells: seq<Cell>)
    ensures |cells| == |Columns|
  {
    seq(|Columns|, i requires 0 <= i < |Columns| => CellFor(row, Columns[i].id))
  }

  /** The last cell of every row links to the row's imageUrl, whatever its value. */
  lemma ImageCellLinksToImageUrl(row: Props)
    ensures RenderRow(Obj(row))[5] == ImageLink(Lookup(row, "imageUrl"))
  {
    assert Columns[5].id == ImageColumnId;
  }

  // ------------------------------------------------------------ page state

  /** The `page` and `rowsPerPage` state of lines 45-46 and its two handlers (lines 56-63). */
  class TablePager {
    var page: int
    var rowsPerPage: Option<int>

    constructor ()
      ensures page == 0 && rowsPerPage == Some(10)
    {
      page := 0;
      rowsPerPage := Some(10);
    }

    /** The rows the table shows for the current state. */
    function Shown<T>(data: Option<seq<T>>): seq<T>
      reads this
    {
      VisibleRows(data, page, rowsPerPage)
    }

    /** `setPage(newPage)`: the page changes, the page size does not. */
    method HandleChangePage(newPage: int)
      modifies this
      ensures page == newPage && rowsPerPage == old(rowsPerPage)
    {
      page := newPage;
    }

    /** `setRowsPerPage(parseInt(value, 10)); setPage(0)`: the parsed size, back on the first page. */
    method HandleChangeRowsPerPage(value: string)
      modifies this
      ensures rowsPerPage == ParseInt(value) && page == 0
      ensures forall rows: seq<int> :: ParseInt(value).Some? && ParseInt(value).value > 0 ==>
                Shown(Some(rows)) == rows[..Min(ParseInt(value).value, |rows|)]
    {
      rowsPerPage := ParseInt(value);
      page := 0;
      forall rows: seq<int> | ParseInt(value).Some? && ParseInt(value).value > 0
        ensures Shown(Some(rows)) == rows[..Min(ParseInt(value).value, |rows|)]
      {
        PageSlice(rows, 0, ParseInt(value).value);
      }
    }
  }
}
