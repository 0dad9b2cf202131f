# Paladium desktop client — market pipeline model

A Dafny model of the market tab of the Paladium desktop client
(`paladium_desktop.py`). The model covers these parts:

- **API client**. It builds the HTTP request for a page of market listings.
  That means the URL, the authentication headers or query parameter chosen by
  the configured scheme, the query parameters and the timeout.
- **Normaliser**. It unwraps the JSON payload into a list of items. Each item
  becomes a six-field row. Each field takes the first *truthy* value among a
  primary key and a fallback key, else a default.
- **Price filter**. It keeps the rows whose price parses as a number and lies
  within the optional minimum and maximum typed by the user.
- **Chart aggregations**:
  - total quantity per item, sorted stably in descending order and cut to 20;
  - the mean and median price of each of those items;
  - price/quantity points per category, capped at 6 categories and 200
    points each.
- **Table model and tab state**:
  - the table's accessors;
  - the page counter;
  - the unfiltered rows, which a filter pass never touches;
  - what the table and the three charts show after a page arrives or after
    the bounds change.

Python values are modelled explicitly:

- JSON values are a datatype, with Python truthiness and `a or b`.
- Dictionaries are insertion-ordered maps. Their keys follow Python's
  equality, so `True`, `1` and `1.0` are the same key. Lists and dicts are
  rejected as keys.
- `float()` and `int()` on text are a small decimal parser.
- Floats are exact reals.

How the source's computations are modelled:

- The three accumulating loops of the chart code (the totals per item, the
  prices per item and the points per category) are methods. Each is proved
  against a group-by specification in first-encounter order (`PyDict.Keys`,
  `PyDict.Group`).
- The list comprehension of `apply_filter` is the recursive function
  `PriceFilter.Filter`. With good bounds it is proved equal to an
  independent selection, `PriceFilter.Select`.
- Python's `sorted()` is modelled by two insertion sorts, `Ranking.SortDesc`
  and `Stats.SortAsc`. Both are proved ordered and permutations of their
  input, and the descending one is also proved stable.
- `Charts.ComputeCharts` is proved against `Charts.ChartsOf`, the chart data
  built directly from the specifications.

The source's classes `ApiClient`, `MarketTableModel` and `MarketTab` are
classes here: `Api.ApiClient`, `MarketView.MarketTableModel` and
`MarketView.MarketTab`. The last two update their fields; the client only
keeps the settings it is given.

Behaviour of the code that a reader might not expect:

- An item of the payload list that is not a dict aborts the whole reload,
  because `it.get` raises inside the worker's `try`. The rows already shown
  stay.
- A price bound that is not a number raises out of `price_ok`, but only
  when some row's price converts and the check reaches that bound. The
  minimum is looked at first, and the maximum only when the minimum did not
  already reject the row (`PriceFilter.FilterRaises`).
  - When the filter runs inside a reload, the worker's `try` catches the
    exception and a message box shows it.
  - When it runs because a price box's text changed, nothing catches it.
- A top item name or a category that is not a string raises when the
  charts are labelled. The catching is the same as for a bad bound.
- The fallbacks of the normaliser apply to falsy values, not only to missing
  ones. A price of 0 falls back to `unit_price`, and a quantity of 0 becomes
  the `count`, else 1.

## Model

| member | source | states |
|---|---|---|
| PyValue.Or | paladium_desktop.py:164-169 | `a or b` is one of its two operands, `a` exactly when `a` is truthy, and it is truthy exactly when either operand is |
| PyValue.HashKey | paladium_desktop.py:196 | a list or dict cannot be a dict key, so the `try` skips its row; every other value has a key, and a string is keyed by its text |
| PyValue.HashKeyIsEquality | paladium_desktop.py:196 | two hashable values share a dict key exactly when Python's `==` holds between them; booleans and numbers compare by value across types |
| PyValue.NumericKeysCoincide | paladium_desktop.py:196 | `True`, `1` and `1.0` are one key, as are `False`, `0` and `0.0`; `None` and the text "1" are not numeric keys |
| PyText.TrimLeft | paladium_desktop.py:184 | the left half of `strip()`: the result is a suffix of the input, everything cut off is whitespace, and it does not start with whitespace |
| PyText.TrimRight | paladium_desktop.py:184 | the right half of `strip()`: the result is a prefix of the input, everything cut off is whitespace, and it does not end with whitespace |
| PyText.Strip | paladium_desktop.py:184 | `strip()` is no longer than its input and has no whitespace at either end |
| PyText.ParseIntText | paladium_desktop.py:196 | `int()` of a string: optional surrounding whitespace, an optional sign, then decimal digits; its round trip with `str()` is `PyText.ParseIntOfString` |
| PyText.ParseFloatText | paladium_desktop.py:182 | `float()` of a string: optional surrounding whitespace, an optional sign, a decimal mantissa with at most one dot, then an optional exponent; `PyText.IntTextIsFloatText` relates it to `int()` |
| PyText.StripRightChar | paladium_desktop.py:73 | `rstrip("/")` keeps a prefix that does not end in '/', and only '/' characters are removed |
| PyText.NatToString | paladium_desktop.py:118 | `str(n)` is non-empty decimal digits with no leading zero whose value is `n` |
| PyText.ParseIntOfString | paladium_desktop.py:118 | `int(str(i)) == i` for every integer |
| PyText.IntTextIsFloatText | paladium_desktop.py:196 | text that `int()` accepts is also accepted by `float()`, with the same value |
| PyConvert.Trunc | paladium_desktop.py:196 | `int()` of a float truncates toward zero |
| PyConvert.ToFloat | paladium_desktop.py:182 | `float()` of a bool, int or float is its value; of a string it is the decimal text's value, or raises; of None, a list or a dict it raises |
| PyConvert.ToInt | paladium_desktop.py:196 | `int()` of a bool or an int is its value; of a float it truncates toward zero; of a string it is the integer text's value, or raises; of None, a list or a dict it raises |
| PyConvert.IntImpliesFloat | paladium_desktop.py:196 | whatever `int()` accepts, `float()` accepts, with the same value except for a fractional float |
| PyDict.Put | paladium_desktop.py:196 | assignment keeps the keys distinct; a new key goes at the end of the order, an existing key keeps its place |
| PyDict.Items | paladium_desktop.py:198 | `d.items()` lists each key with its value in insertion order, names each key once, and names exactly the dict's keys |
| PyDict.EmptyDict | paladium_desktop.py:194 | `{}` has no keys |
| PyDict.KeysDistinct | paladium_desktop.py:194-198 | the first-encounter key order has no duplicates and holds exactly the keys with a non-empty group |
| PyDict.KeysMembership | paladium_desktop.py:194-198 | a key is in the first-encounter order exactly when some pair carries it |
| PyDict.KeysPrefix | paladium_desktop.py:194-198 | first-encounter order: the keys seen in any prefix of the contributions are a prefix of the key order, so an item first seen earlier is listed earlier |
| Normalizer.Normalize | paladium_desktop.py:160-169 | the items are the payload's "data" list when the payload is a dict, the payload itself when it is a list, and none otherwise; one row per item in order when every item is a dict, else an error naming the first item that is not a dict |
| Normalizer.RowOf | paladium_desktop.py:164-169 | the row built from one item, each field an `or` chain of the primary key, the fallback key and the default; its meaning is stated by the three lemmas below |
| Normalizer.QuantityNeverFalsy | paladium_desktop.py:167 | a row's quantity is never falsy: `quantity`, else `count`, else 1 |
| Normalizer.FalsyPrimaryFallsBack | paladium_desktop.py:164-169 | for every field, a primary value that is missing or falsy (None, False, 0, 0.0, "") gives way to the fallback key and then the default; a truthy price or quantity is kept |
| Normalizer.ZeroPriceExample | paladium_desktop.py:166 | a price present as 0.0 is replaced by `unit_price`, exactly as a missing price is |
| Normalizer.SwordExample | paladium_desktop.py:164-169 | an item with only `name`, `unit_price` and `count` gives a row with those values and defaults elsewhere |
| Normalizer.ErrorPayloadIsEmpty | paladium_desktop.py:160-161 | a dict payload whose "data" entry is missing or is not a list gives no items |
| PriceFilter.Bound | paladium_desktop.py:184-186 | what a bound box means: empty after stripping is no bound, otherwise `float()` of the text, which may raise |
| PriceFilter.PriceOk | paladium_desktop.py:181-187 | `price_ok(r)`; its meaning is stated by `PriceFilter.PriceOkMeaning` |
| PriceFilter.Filter | paladium_desktop.py:188 | `[r for r in rows if price_ok(r)]`, ended by the first exception; its meaning is stated by `PriceFilter.FilterIsSelect` and `PriceFilter.FilterRaises` |
| PriceFilter.PriceOkMeaning | paladium_desktop.py:181-187 | `price_ok` raises exactly when the price parses and a bound it reaches is non-empty and not a number; with good bounds it holds exactly for a parsable price within the bounds |
| PriceFilter.FilterIsSelect | paladium_desktop.py:188 | with both bounds empty or numeric, the filter gives the in-order selection of rows whose price parses and lies in range |
| PriceFilter.FilterRaises | paladium_desktop.py:181-188 | the filter raises exactly when some row makes `price_ok` raise |
| PriceFilter.SelectContents | paladium_desktop.py:188 | every kept row appears as often as in the input, and every other row not at all |
| PriceFilter.SelectIsSubsequence | paladium_desktop.py:188 | the kept rows keep their input order |
| PriceFilter.FilterIdempotent | paladium_desktop.py:188 | filtering the filtered rows again with the same bounds changes nothing |
| Ranking.SortDesc | paladium_desktop.py:198 | `sorted(..., key=total, reverse=True)` as an insertion sort; its meaning is stated by `Ranking.SortDescCorrect` |
| Ranking.Top | paladium_desktop.py:198 | `sorted(...)[:n]`; its meaning is stated by `Ranking.TopCorrect` |
| Ranking.SortDescCorrect | paladium_desktop.py:198 | `sorted(..., key=total, reverse=True)` is non-increasing, a permutation, and stable: entries with equal totals keep their order |
| Ranking.TopCorrect | paladium_desktop.py:198 | `[:20]` of the sorted totals has min(n, 20) entries, is sorted, is drawn from the input, keeps tie order, and no entry left out beats a kept one |
| Stats.Mean | paladium_desktop.py:208 | `avg(lst)`: 0 for an empty list, else the sum over the length; bounded by `Stats.MeanBetween` |
| Stats.SortAsc | paladium_desktop.py:211 | `sorted(lst)` as an insertion sort; its meaning is stated by `Stats.SortAscCorrect` |
| Stats.Median | paladium_desktop.py:209-212 | `med(lst)`: 0 for an empty list, else the middle of the sorted list or the mean of the two middle values; see `Stats.MedianBetween`, `Stats.MedianOrderFree` and `Stats.MedianExamples` |
| Stats.SortAscCorrect | paladium_desktop.py:211 | `sorted(lst)` is ascending and a permutation |
| Stats.MeanBetween | paladium_desktop.py:208 | the mean of a non-empty list lies between its minimum and its maximum |
| Stats.MedianBetween | paladium_desktop.py:209-212 | the median of a non-empty list lies between its minimum and its maximum |
| Stats.MedianOrderFree | paladium_desktop.py:209-212 | the median depends only on the multiset of prices, not on their order |
| Stats.MedianExamples | paladium_desktop.py:209-212 | the middle value for an odd length, the average of the two middle values for an even length |
| Charts.QtyContribution | paladium_desktop.py:196 | what one row adds to `qty`: its item and `int()` of its quantity, or nothing when either raises |
| Charts.Totals | paladium_desktop.py:194-198 | the `(item, total)` pairs of `qty.items()`; their meaning is stated by `Charts.TotalsMeaning` |
| Charts.Top20 | paladium_desktop.py:198 | the top-20 list of the totals; its properties are those of `Ranking.TopCorrect` |
| Charts.TotalQuantities | paladium_desktop.py:194-197 | the `qty` dict holds each item in first-encounter order with the sum of `int()` of its quantities; a float quantity is truncated toward zero, a bool counts as 0 or 1, and text counts as the integer it spells; rows whose item is unhashable or whose quantity `int()` rejects are skipped |
| Charts.TotalsMeaning | paladium_desktop.py:194-198 | the totals name each item once, exactly the items that contributed, each with its sum |
| Charts.PriceContribution | paladium_desktop.py:205 | what one row hands to `setdefault(...).append(...)`: its hashable item and `float()` of its price when that converts; an unhashable item gives nothing |
| Charts.PricesByItem | paladium_desktop.py:204-206 | every hashable item met has an entry, even when none of its prices parses; `prices[item]` is the in-order list of that item's parsable prices; unhashable items add nothing |
| Charts.PriceStats | paladium_desktop.py:213-215 | one (mean, median) pair per top item, of `prices.get(name, [])` |
| Charts.CategoryOf | paladium_desktop.py:222 | `r.get("category") or "N/A"`; see `Charts.MissingCategoryIsNA` |
| Charts.PointOf | paladium_desktop.py:221-223 | the point one row adds under its category: both `float()` conversions must succeed and the category must be hashable |
| Charts.MissingCategoryIsNA | paladium_desktop.py:222 | a row with a falsy category is plotted under "N/A" |
| Charts.ByCategory | paladium_desktop.py:219-224 | `by_cat` holds each category in first-encounter order with its in-order (price, quantity) points; a row whose price or quantity does not parse adds no point |
| Charts.ScatterSeries | paladium_desktop.py:226-228 | the first min(6, n) categories, each with at most its first 200 points |
| Charts.ComputeCharts | paladium_desktop.py:192-228 | the three charts' data are the top-20 totals, the price mean and median of each, and the capped scatter series |
| Charts.ChartsForUnique | paladium_desktop.py:192-228 | the chart data are determined by the rows alone |
| Api.ApiClient.constructor | paladium_desktop.py:57-58 | the client keeps the settings it is given |
| Api.ApiClient.Headers | paladium_desktop.py:60-70 | Accept is always sent; Bearer and Plain put the key in Authorization, X-API-Key in the configured header, any other scheme nowhere |
| Api.ApiClient.Base | paladium_desktop.py:73 | the base URL loses exactly its trailing '/' characters |
| Api.ApiClient.Get | paladium_desktop.py:72-79 | URL is base plus path; only the Query scheme adds `apikey` and then sends no credential header; timeout defaults to 15 |
| Api.ApiClient.MarketItems | paladium_desktop.py:87-91 | page and size are always sent; `q` and `sort` exactly when non-empty; `apikey`, holding the configured key, exactly under Query; nothing else; timeout defaults to 15 |
| Api.ApiClient.PlayerProfile | paladium_desktop.py:93-94 | the request goes to `/v1/players/<ident>` with the scheme's headers; its only parameter is `apikey` holding the configured key, under Query only; timeout defaults to 15 |
| Api.ApiClient.FactionProfile | paladium_desktop.py:96-97 | the request goes to `/v1/factions/<fid>` with the scheme's headers; its only parameter is `apikey` holding the configured key, under Query only; timeout defaults to 15 |
| Api.ApiClient.ServerStatus | paladium_desktop.py:99-100 | the request goes to `/v1/status` with the scheme's headers; its only parameter is `apikey` holding the configured key, under Query only; timeout defaults to 15 |
| Api.TrailingSlashesIgnored | paladium_desktop.py:73-74 | base URLs that differ only in trailing slashes give the same URL |
| MarketView.ColumnKeys | paladium_desktop.py:110-112 | each column title, lower-cased, is the key of the row field it shows |
| MarketView.MarketTableModel.constructor | paladium_desktop.py:105 | a new table model has no rows |
| MarketView.MarketTableModel.RowCount | paladium_desktop.py:106 | one table row per row held |
| MarketView.MarketTableModel.ColumnCount | paladium_desktop.py:107 | six columns |
| MarketView.MarketTableModel.Data | paladium_desktop.py:108-112 | nothing for an index outside the table, otherwise the field the column names |
| MarketView.MarketTableModel.HeaderData | paladium_desktop.py:116-118 | the column title across the top; down the side the decimal digits of the 1-based row number, without a leading zero, which read back as that number |
| MarketView.MarketTableModel.Update | paladium_desktop.py:119 | the model holds the given rows |
| MarketView.MarketTab.constructor | paladium_desktop.py:122-123 | a new tab is on page 1 with no rows, no charts, and the configured page size (default 50) |
| MarketView.MarketTab.Prev | paladium_desktop.py:149-150 | the page goes back one and a reload follows exactly when it was above 1; the page never drops below 1 |
| MarketView.MarketTab.Next | paladium_desktop.py:151-152 | the page goes forward one and a reload follows |
| MarketView.MarketTab.PageRequest | paladium_desktop.py:159 | a reload asks for the current page and page size, the stripped search text and the chosen sort key |
| MarketView.LabelsOk | paladium_desktop.py:200 | `name[:16]` raises unless every top item's name is a string |
| MarketView.SeriesNamesOk | paladium_desktop.py:227 | `setName(cat)` raises unless every plotted category is a string |
| MarketView.FilterOutcome | paladium_desktop.py:179-190 | what one `apply_filter` pass leaves in the table and the three charts, for each way it can end; established by `MarketView.MarketTab.ApplyFilter` |
| MarketView.MarketTab.ApplyFilter | paladium_desktop.py:179-190 | unfiltered rows untouched; a bad bound changes nothing; otherwise the table shows the kept rows and the charts are redrawn from them, up to the first label that raises |
| MarketView.MarketTab.Loaded | paladium_desktop.py:157-176 | a failed fetch or a non-dict item changes nothing; otherwise the rows replace the unfiltered rows and a filter pass follows, and if it raises the table keeps the whole page |
| MarketView.LoadedWithGoodBounds | paladium_desktop.py:163-190 | after a page loads with bounds that are empty or numbers, the table shows exactly the in-range rows in page order, and the filter does not fail |

## Left out

- Widgets, layouts, the proxy model's case-insensitive regular-expression
  search, column sorting in the view, and chart drawing are not modelled. The
  charts are modelled as the data they are drawn from.
- The HTTP call, `raise_for_status` and the decoding of the response are not
  modelled. `MarketTab.Loaded` receives their outcome: a decoded JSON value
  (a text body is a string value) or the error's message.
- The background thread, and the race between overlapping reloads, are not
  modelled. Each reload is treated as finishing before the next starts.
- The status label texts ("Chargement…", "Page N") and the message boxes are
  not modelled. The failure returned names the exception they would show.
- `MarketView.MarketTableModel.Data`: the value is given as the field itself, not `str()` of it, and the alignment role is not modelled.
- `MarketView.MarketTableModel.HeaderData`: only the display role is modelled; for every other role the source returns an empty `QVariant()`.
- Config loading and saving, the settings tab, CSV export, and the player,
  faction and status tabs are not modelled. The API requests those tabs send
  are modelled.
- `Api.ApiClient.constructor`: the client keeps the settings as a value. In
  the source it holds the same dict the settings tab updates in place when
  saved, so later requests see the new settings; that aliasing is not
  modelled.
- Settings values that are not strings or integers (for example a null
  `api_key`) are not modelled.
- Floating point is modelled by exact reals. `float()` on text accepts
  optional whitespace, a sign, digits with at most one '.', and an exponent.
  These are not accepted:
  - "inf" and "nan";
  - underscores between digits;
  - non-ASCII digits.

  `int()` on text (`PyText.ParseIntText`) has the same limits: it rejects
  underscores between digits ("1_000") and non-ASCII digits, which Python
  accepts.

  `float()` of an integer too large for a double does not raise here.
- `PyText.Strip`: its own contract states only that the result is no longer than the input and has no whitespace at either end; that exactly the leading and trailing whitespace is cut is stated by `PyText.TrimLeft` and `PyText.TrimRight`, which it composes.
- `PyConvert.ToInt`: `int()` of a float that is infinite or NaN cannot arise, since reals are finite.
- `PyConvert.ToFloat`: `float()` of a very large integer gives the exact value instead of raising OverflowError.
