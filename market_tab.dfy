/**
 * The Market tab (paladium_desktop.py:102-190): the table model the listing
 * view reads, the page counter the arrow buttons move, the request a reload
 * sends, and what the tab keeps once a page arrives or the price bounds
 * change. Widgets, the thread the fetch runs on, the text filter of the view
 * and the drawing of the charts are not part of this model; the tab's state
 * is its page, its unfiltered rows, the rows the table shows and the data the
 * charts were last drawn from.
 */
module MarketView {
  import opened Wrappers
  import opened PyValue
  import opened PyText
  import opened Normalizer
  import opened PriceFilter
  import opened Charts
  import opened Api

  /** `MarketTableModel.COLUMNS`. */
  const Columns: seq<string> := ["Item", "Category", "Price", "Quantity", "Seller", "Timestamp"]

  /** The row field each column shows, in column order. */
  function ColumnValue(r: Row, col: nat): Json
    requires col < |Columns|
  {
    [r.item, r.category, r.price, r.quantity, r.seller, r.timestamp][col]
  }

  /** `str.lower()` on the ASCII letters the column titles are made of. */
  function LowerChar(c: char): char {
    if 'A' <= c <= 'Z' then (c as int + 32) as char else c
  }

  function Lower(s: string): string {
    seq(|s|, i requires 0 <= i < |s| => LowerChar(s[i]))
  }

  /** `row.get(key, "")` on a normalised row. */
  function Field(r: Row, key: string): Json {
    if key == "item" then r.item
    else if key == "category" then r.category
    else if key == "price" then r.price
    else if key == "quantity" then r.quantity
    else if key == "seller" then r.seller
    else if key == "timestamp" then r.timestamp
    else JStr("")
  }

  /** Every column title, lower-cased, is the key of the field it shows. */
  lemma ColumnKeys(r: Row, col: nat)
    requires col < |Columns|
    ensures Field(r, Lower(Columns[col])) == ColumnValue(r, col)
  {
    if col == 0 {
      assert Lower("Item") == "item";
    } else if col == 1 {
      assert Lower("Category") == "category";
    } else if col == 2 {
      assert Lower("Price") == "price";
    } else if col == 3 {
      assert Lower("Quantity") == "quantity";
    } else if col == 4 {
      assert Lower("Seller") == "seller";
    } else {
      assert Lower("Timestamp") == "timestamp";
    }
  }

  /** The rows the listing view shows. */
  class MarketTableModel {
    var rows: seq<Row>

    constructor()
      ensures rows == []
    {
      rows := [];
    }

    /** `rowCount()`. */
    method RowCount() returns (n: nat)
      ensures n == |rows|
    {
      n := |rows|;
    }

    /** `columnCount()`. */
    method ColumnCount() returns (n: nat)
      ensures n == |Columns| == 6
    {
      n := |Columns|;
    }

    /** `data(index)` for the display role: nothing for an index outside the
        table, otherwise the field of that row that the column's title names. */
    method Data(row: int, col: int) returns (v: Option<Json>)
      ensures v.Some? <==> 0 <= row < |rows| && 0 <= col < |Columns|
      ensures v.Some? ==> v.value == ColumnValue(rows[row], col)
    {
      if 0 <= row < |rows| && 0 <= col < |Columns| {
        var r := rows[row];
        ColumnKeys(r, col);
        v := Some(Field(r, Lower(Columns[col])));
      } else {
        v := None;
      }
    }

    /** `headerData(section, orientation)` for the display role: the column
        title across the top, the 1-based row number down the side. */
    method HeaderData(section: int, horizontal: bool) returns (title: string)
      requires 0 <= section
      requires horizontal ==> section < |Columns|
      ensures horizontal ==> title == Columns[section]
      ensures !horizontal ==> AllDigits(title) && ParseIntText(title) == Some(section + 1)
      ensures !horizontal ==> title != [] && (|title| > 1 ==> title[0] != '0')
    {
      if horizontal {
        title := Columns[section];
      } else {
        title := NatToString(section + 1);
        ParseIntOfString(section + 1);
      }
    }

    /** `update(rows)`. */
    method Update(newRows: seq<Row>)
      modifies this
      ensures rows == newRows
    {
      rows := newRows;
    }
  }

  /** The sort keys the sort box offers, in order. */
  const SortChoices: seq<string> := ["", "price_asc", "price_desc", "quantity_desc"]

  /** Why a reload or a filter pass ended early. */
  datatype Failure =
    | FetchFailed(message: string)   // the HTTP call raised
    | BadItem(load: LoadError)       // an item of the list is not a dict
    | BadFilter(filter: FilterError) // a price bound is not a number
    | BadLabel                       // a top item's name is not a string, so `name[:16]` raises
    | BadSeriesName                  // a scatter category is not a string, so `setName` raises

  /** `name[:16]` raises unless every name in the top list is a string. */
  predicate LabelsOk(top: seq<(Key, int)>) {
    forall i | 0 <= i < |top| :: top[i].0.KStr?
  }

  /** A scatter series can only be named by a string. */
  predicate SeriesNamesOk(scatter: seq<(Key, seq<(real, real)>)>) {
    forall i | 0 <= i < |scatter| :: scatter[i].0.KStr?
  }

  /** What each of the three chart views was last drawn from; None until the
      first time it is drawn. */
  datatype ChartViews = ChartViews(
    top: Option<seq<(Key, int)>>,
    prices: Option<seq<(real, real)>>,
    scatter: Option<seq<(Key, seq<(real, real)>)>>)

  /** What one `apply_filter` pass over `raw` leaves behind, the table having
      shown `rowsBefore` and the charts `before`. A bad bound changes nothing.
      Otherwise the table shows the kept rows and the charts are redrawn from
      them in order: a top name that is not a string stops before any chart
      is drawn, a category that is not a string stops after the first two. */
  ghost predicate FilterOutcome(raw: seq<Row>, minText: string, maxText: string, failure: Option<Failure>,
                                rowsBefore: seq<Row>, before: ChartViews,
                                rowsAfter: seq<Row>, after: ChartViews)
  {
    match Filter(raw, minText, maxText)
    case Err(e) =>
      failure == Some(BadFilter(e)) && rowsAfter == rowsBefore && after == before
    case Ok(kept) =>
      && rowsAfter == kept
      && var c := ChartsOf(kept);
         if !LabelsOk(c.top) then
           failure == Some(BadLabel) && after == before
         else if !SeriesNamesOk(c.scatter) then
           failure == Some(BadSeriesName) && after == ChartViews(Some(c.top), Some(c.stats), before.scatter)
         else
           failure.None? && after == ChartViews(Some(c.top), Some(c.stats), Some(c.scatter))
  }

  class MarketTab {
    const api: ApiClient
    const model: MarketTableModel
    const pageSize: int
    var curPage: int
    var rawRows: seq<Row>
    var charts: ChartViews

    /** The page counter never drops below the first page. */
    ghost predicate Valid()
      reads this
    {
      curPage >= 1
    }

    /** A new tab starts on page 1 with nothing loaded; the page size is the
        configured one, 50 when none is. */
    constructor(api: ApiClient, cfg: Config)
      ensures Valid()
      ensures this.api == api && curPage == 1 && rawRows == []
      ensures charts == ChartViews(None, None, None)
      ensures pageSize == GetOr(cfg.pageSize, 50)
      ensures fresh(model) && model.rows == []
    {
      this.api := api;
      model := new MarketTableModel();
      pageSize := GetOr(cfg.pageSize, 50);
      curPage := 1;
      rawRows := [];
      charts := ChartViews(None, None, None);
    }

    /** `_prev()`: go back one page and reload, unless already on page 1. */
    method Prev() returns (reload: bool)
      requires Valid()
      modifies this`curPage
      ensures Valid()
      ensures reload <==> old(curPage) > 1
      ensures curPage == if reload then old(curPage) - 1 else old(curPage)
    {
      reload := curPage > 1;
      if reload {
        curPage := curPage - 1;
      }
    }

    /** `_next()`: go forward one page and reload; there is no last page. */
    method Next() returns (reload: bool)
      requires Valid()
      modifies this`curPage
      ensures Valid()
      ensures reload && curPage == old(curPage) + 1
    {
      curPage := curPage + 1;
      reload := true;
    }

    /** The request a reload sends: the current page, the page size, the
        search box's text without surrounding whitespace and the chosen sort
        key. */
    method PageRequest(searchText: string, sortIndex: nat) returns (req: Request)
      requires sortIndex < |SortChoices|
      ensures api.MarketRequest(req, curPage, pageSize, Strip(searchText), SortChoices[sortIndex])
    {
      req := api.MarketItems(curPage, pageSize, Strip(searchText), SortChoices[sortIndex]);
    }

    /** `apply_filter()` with the price boxes holding `minText` and
        `maxText`. The unfiltered rows are never touched. */
    method ApplyFilter(minText: string, maxText: string) returns (failure: Option<Failure>)
      modifies model, this`charts
      ensures rawRows == old(rawRows)
      ensures FilterOutcome(rawRows, minText, maxText, failure,
                            old(model.rows), old(charts), model.rows, charts)
    {
      match Filter(rawRows, minText, maxText)
      case Err(e) =>
        failure := Some(BadFilter(e));
      case Ok(kept) =>
        model.Update(kept);
        var c := ComputeCharts(kept);
        ChartsForUnique(c, ChartsOf(kept), kept);
        if !LabelsOk(c.top) {
          failure := Some(BadLabel);
        } else if !SeriesNamesOk(c.scatter) {
          charts := charts.(top := Some(c.top), prices := Some(c.stats));
          failure := Some(BadSeriesName);
        } else {
          charts := ChartViews(Some(c.top), Some(c.stats), Some(c.scatter));
          failure := None;
        }
    }

    /** The rest of a reload once the fetch has answered with `fetched`. A
        failed fetch or an item that is not a dict changes nothing. Otherwise
        the rows replace the unfiltered rows and the table, and a filter pass
        follows; if that pass fails, the table keeps every row of the page. */
    method Loaded(fetched: Result<Json, string>, minText: string, maxText: string)
      returns (failure: Option<Failure>)
      modifies this`rawRows, this`charts, model
      ensures fetched.Err? ==>
                && failure == Some(FetchFailed(fetched.error))
                && rawRows == old(rawRows) && model.rows == old(model.rows) && charts == old(charts)
      ensures fetched.Ok? && failure.Some? && failure.value.BadItem? ==>
                && NormalizedAs(fetched.value, Err(failure.value.load))
                && rawRows == old(rawRows) && model.rows == old(model.rows) && charts == old(charts)
      ensures fetched.Ok? && !(failure.Some? && failure.value.BadItem?) ==>
                && NormalizedAs(fetched.value, Ok(rawRows))
                && FilterOutcome(rawRows, minText, maxText, failure,
                                 rawRows, old(charts), model.rows, charts)
    {
      if fetched.Err? {
        return Some(FetchFailed(fetched.error));
      }
      var res := Normalize(fetched.value);
      if res.Err? {
        return Some(BadItem(res.error));
      }
      rawRows := res.value;
      model.Update(res.value);
      failure := ApplyFilter(minText, maxText);
    }
  }

  /** A page that loads with bounds that are both empty or numbers: the tab
      keeps every row of the page, and the table shows exactly the rows whose
      price parses and lies within the bounds, in page order. */
  lemma LoadedWithGoodBounds(payload: Json, rows: seq<Row>, minText: string, maxText: string,
                             tableRows: seq<Row>, failure: Option<Failure>,
                             chartsBefore: ChartViews, chartsAfter: ChartViews)
    requires NormalizedAs(payload, Ok(rows))
    requires Bound(minText).Some? && Bound(maxText).Some?
    requires FilterOutcome(rows, minText, maxText, failure, rows, chartsBefore, tableRows, chartsAfter)
    ensures tableRows == Select(rows, Bound(minText).value, Bound(maxText).value)
    ensures !(failure.Some? && failure.value.BadFilter?)
  {
    FilterIsSelect(rows, minText, maxText);
  }
}
