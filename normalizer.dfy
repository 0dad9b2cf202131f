/**
 * The market-record normaliser run when a page of listings arrives
 * (paladium_desktop.py:160-170): unwrap the payload into a list of items and
 * turn each item into a six-field row, each field taking the first truthy
 * value among its primary key and its fallback key, else a default.
 */
module Normalizer {
  import opened Wrappers
  import opened PyValue

  /** One table row. The values are kept as decoded: a price may be a number
      or a string, exactly as the upstream item had it. */
  datatype Row = Row(
    item: Json,
    category: Json,
    price: Json,
    quantity: Json,
    seller: Json,
    timestamp: Json)

  /** Raised while normalising: item `index` of the list is not a dict, so
      `it.get(...)` fails and the whole page is dropped. */
  datatype LoadError = NotAnObject(index: nat)

  /** The row built from one upstream item: each field is the item's value
      under the primary key when truthy, else its value under the fallback
      key when truthy, else the default. */
  function RowOf(it: map<string, Json>): Row {
    Row(
      Or(Get(it, "item"), Or(Get(it, "name"), JStr(""))),
      Or(Get(it, "category"), JStr("")),
      Or(Get(it, "price"), Or(Get(it, "unit_price"), JInt(0))),
      Or(Get(it, "quantity"), Or(Get(it, "count"), JInt(1))),
      Or(Get(it, "seller"), Or(Get(it, "owner"), JStr(""))),
      Or(Get(it, "timestamp"), Or(Get(it, "created_at"), JStr(""))))
  }

  /** The list a payload carries: a dict contributes its "data" entry, a list
      is itself, and whatever is not a list in the end yields nothing. */
  function Items(payload: Json): (items: seq<Json>)
    ensures payload.JArr? ==> items == payload.elems
    ensures !payload.JArr? && !payload.JObj? ==> items == []
    ensures payload.JObj? ==>
      items == (if Get(payload.fields, "data").JArr? then Get(payload.fields, "data").elems else [])
  {
    var data := if payload.JObj? then Get(payload.fields, "data") else payload;
    if data.JArr? then data.elems else []
  }

  /** The outcome of the loop over the items: one row per item, in order,
      unless some item is not a dict, in which case the first such item
      aborts the page. */
  ghost predicate NormalizedAs(payload: Json, res: Result<seq<Row>, LoadError>) {
    && (res.Ok? <==> forall i | 0 <= i < |Items(payload)| :: Items(payload)[i].JObj?)
    && (res.Ok? ==> |res.value| == |Items(payload)|)
    && (res.Ok? ==> forall i | 0 <= i < |res.value| ::
                      res.value[i] == RowOf(Items(payload)[i].fields))
    && (res.Err? ==> && res.error.index < |Items(payload)|
                     && !Items(payload)[res.error.index].JObj?
                     && forall j | 0 <= j < res.error.index :: Items(payload)[j].JObj?)
  }

  /** The loop over the items. */
  method Normalize(payload: Json) returns (res: Result<seq<Row>, LoadError>)
    ensures NormalizedAs(payload, res)
  {
    var items := if payload.JObj? then Get(payload.fields, "data") else payload;
    if !items.JArr? {
      items := JArr([]);
    }
    assert items.elems == Items(payload);
    var rows: seq<Row> := [];
    for i := 0 to |items.elems|
      invariant |rows| == i
      invariant forall j | 0 <= j < i :: items.elems[j].JObj? && rows[j] == RowOf(items.elems[j].fields)
    {
      var it := items.elems[i];
      if !it.JObj? {
        return Err(NotAnObject(i));
      }
      rows := rows + [RowOf(it.fields)];
    }
    return Ok(rows);
  }

  /** Quantity falls back from `quantity` to `count` to 1, and since 1 is
      truthy a row's quantity is never 0, empty or missing. */
  lemma QuantityNeverFalsy(it: map<string, Json>)
    ensures Truthy(RowOf(it).quantity)
  {
  }

  /** A falsy primary value does not count as present: whether the key is
      missing or holds None, False, 0, 0.0 or "", each field falls back to its
      fallback key and then to its default; a truthy primary value is kept. */
  lemma FalsyPrimaryFallsBack(it: map<string, Json>)
    ensures !Truthy(Get(it, "item")) ==> RowOf(it).item == Or(Get(it, "name"), JStr(""))
    ensures !Truthy(Get(it, "category")) ==> RowOf(it).category == JStr("")
    ensures !Truthy(Get(it, "price")) ==> RowOf(it).price == Or(Get(it, "unit_price"), JInt(0))
    ensures !Truthy(Get(it, "quantity")) ==> RowOf(it).quantity == Or(Get(it, "count"), JInt(1))
    ensures !Truthy(Get(it, "seller")) ==> RowOf(it).seller == Or(Get(it, "owner"), JStr(""))
    ensures !Truthy(Get(it, "timestamp")) ==> RowOf(it).timestamp == Or(Get(it, "created_at"), JStr(""))
    ensures Truthy(Get(it, "price")) ==> RowOf(it).price == it["price"]
    ensures Truthy(Get(it, "quantity")) ==> RowOf(it).quantity == it["quantity"]
  {
  }

  /** A price present as 0.0 is replaced by the `unit_price`, exactly as a
      missing one would be. */
  lemma ZeroPriceExample()
    ensures RowOf(map["price" := JNum(0.0), "unit_price" := JStr("5")]).price == JStr("5")
    ensures RowOf(map["unit_price" := JStr("5")]).price == JStr("5")
  {
    assert "price" != "unit_price" by { assert "price"[0] != "unit_price"[0]; }
  }

  /** The upstream shape `{"name": "Sword", "unit_price": "12.5", "count": 3}`
      takes every field from its fallback key or default. */
  lemma SwordExample()
    ensures RowOf(map["name" := JStr("Sword"), "unit_price" := JStr("12.5"), "count" := JInt(3)])
         == Row(JStr("Sword"), JStr(""), JStr("12.5"), JInt(3), JStr(""), JStr(""))
  {
    var it := map["name" := JStr("Sword"), "unit_price" := JStr("12.5"), "count" := JInt(3)];
    assert "item" != "name" by { assert "item"[0] != "name"[0]; }
    assert "price" != "count" by { assert "price"[0] != "count"[0]; }
    assert "owner" != "count" by { assert "owner"[0] != "count"[0]; }
    assert "created_at" != "unit_price" by { assert "created_at"[0] != "unit_price"[0]; }
  }

  /** A dict payload without a "data" list (an error object, say) yields no
      items at all. */
  lemma ErrorPayloadIsEmpty(m: map<string, Json>)
    requires "data" !in m || !m["data"].JArr?
    ensures Items(JObj(m)) == []
  {
  }
}
