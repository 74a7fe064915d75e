/**
 * The purchase slice of the dashboard's state container: the draft of the
 * purchase order being built (`detailsPurchase`), the list of fetched orders
 * (`listPurchase`), the order being viewed or edited (`order`) and the
 * `isLoading` / `error` flags, together with the thunks that compute what to
 * dispatch.
 *
 * HTTP replies are parameters; the helpers `summary`, `Articles` and
 * `TransformsArticles` and the date formatter are function parameters whose
 * definitions are not part of this model.
 */
module PurchaseReducer {
  import opened JsValue

  /** `summary(lines, discount)`: the order summary object. */
  type SummaryFn = (Value, Number) -> Value
  /** `Articles(x)`: the article list as the purchase endpoint expects it. */
  type ArticlesFn = Value -> Value
  /** `TransformsArticles(articles, products)`: draft lines for a fetched order. */
  type TransformsArticlesFn = (Value, Value) -> seq<Value>
  /** `format(new Date(x), DATEFORMAT)` */
  type DateFormatFn = Value -> Value

  /** How an HTTP request settled: a reply body, or the error axios rejects with. */
  datatype HttpResult = Response(data: Value) | HttpError(error: Value)

  /** `error?.response?.status === 404` */
  predicate IsNotFound(error: Value)
    ensures IsNotFound(error) <==> Get(Get(error, "response"), "status") == Num(FromInt(404))
    ensures Get(Get(error, "response"), "status") == Str("404") ==> !IsNotFound(error)
  {
    StrictEqualsNumber(Get(Get(error, "response"), "status"), FromInt(404))
  }

  // ---------------------------------------------------------------------------
  // Draft lines

  /** `item.isSelected === true` */
  predicate IsSelected(line: Value) {
    Get(line, "isSelected") == Bool(true)
  }

  /** The lines `addItemsPurchase` admits to the draft. */
  function SelectLines(data: seq<Value>): (r: seq<Value>)
    ensures forall x :: x in r <==> x in data && IsSelected(x)
    ensures |r| <= |data|
  {
    Filter(data, IsSelected)
  }

  /** Selection keeps the selected lines in their relative order. */
  lemma SelectLinesKeepsOrder(a: seq<Value>, b: seq<Value>)
    ensures SelectLines(a + b) == SelectLines(a) + SelectLines(b)
  {
    FilterConcat(a, b, IsSelected);
  }

  /** The data passes through unchanged exactly when every line is selected. */
  lemma SelectLinesAllSelected(data: seq<Value>)
    ensures SelectLines(data) == data <==> forall i :: 0 <= i < |data| ==> IsSelected(data[i])
  {
    FilterKeepsAll(data, IsSelected);
  }

  /** `item => item.ID !== id` */
  function KeepsLine(id: Number): Value -> bool {
    line => !StrictEqualsNumber(Get(line, "ID"), id)
  }

  /** The lines `deleteItemsPurchase(id)` keeps. */
  function WithoutId(lines: seq<Value>, id: Number): (r: seq<Value>)
    ensures forall x :: x in r <==> x in lines && !StrictEqualsNumber(Get(x, "ID"), id)
    ensures |r| <= |lines|
  {
    Filter(lines, KeepsLine(id))
  }

  /** Deleting keeps every other line, in order. */
  lemma WithoutIdKeepsOrder(a: seq<Value>, b: seq<Value>, id: Number)
    ensures WithoutId(a + b, id) == WithoutId(a, id) + WithoutId(b, id)
  {
    FilterConcat(a, b, KeepsLine(id));
  }

  /** Deleting the same ID twice is deleting it once. */
  lemma WithoutIdIdempotent(lines: seq<Value>, id: Number)
    ensures WithoutId(WithoutId(lines, id), id) == WithoutId(lines, id)
  {
    FilterIdempotent(lines, KeepsLine(id));
  }

  /** The draft is unchanged exactly when no line carries the ID; a NaN ID matches no line. */
  lemma WithoutIdUnchanged(lines: seq<Value>, id: Number)
    ensures WithoutId(lines, id) == lines <==> forall i :: 0 <= i < |lines| ==> !StrictEqualsNumber(Get(lines[i], "ID"), id)
    ensures id.NaN? ==> WithoutId(lines, id) == lines
  {
    FilterKeepsAll(lines, KeepsLine(id));
  }

  // ---------------------------------------------------------------------------
  // Fetched orders

  /** The names `getPurchaseList` adds to each fetched order. */
  const RowDecorations: set<string> := {"NumberOrder", "BusinessName", "Warehouse", "CreatedAt"}

  /** One row of the purchase list: the fetched order decorated for display. */
  function ShapeRow(item: Value, formatDate: DateFormatFn): (r: Value)
    requires !IsNullish(item)
    ensures r.Obj? && r.props.Keys == Spread(item).Keys + RowDecorations
    ensures r.props["NumberOrder"] == Str("Farmu-" + ToString(Get(item, "ID")))
    ensures r.props["BusinessName"] == Get(Get(item, "Supplier"), "BusinessName")
    ensures r.props["Warehouse"] == Get(Get(item, "Warehouse"), "Name")
    ensures r.props["CreatedAt"] == formatDate(Get(item, "CreatedAt"))
    ensures forall k :: k !in RowDecorations ==> Get(r, k) == Get(item, k)
  {
    var decorations := map[
      "NumberOrder" := Str("Farmu-" + ToString(Get(item, "ID"))),
      "BusinessName" := Get(Get(item, "Supplier"), "BusinessName"),
      "Warehouse" := Get(Get(item, "Warehouse"), "Name"),
      "CreatedAt" := formatDate(Get(item, "CreatedAt"))
    ];
    assert decorations.Keys == RowDecorations;
    Obj(Spread(item) + decorations)
  }

  /** An order with a non-negative integer ID below 10^21 is numbered `Farmu-` followed by the ID's decimal digits. */
  lemma NumberOrderOfIntegerId(item: Value, formatDate: DateFormatFn, id: nat)
    requires Get(item, "ID") == Num(FromInt(id)) && id < Pow10(21)
    ensures ShapeRow(item, formatDate).props["NumberOrder"] == Str("Farmu-" + NatToDigits(id))
  {
    IntegerToString(id);
  }

  /** A numeric sort key, as the comparator's subtraction converts it. */
  type SortKey = Value -> Number

  /** `row.ID` converted to a number, the key of `(a, b) => a.ID - b.ID`. */
  function IdKey(row: Value): Number {
    ToNumber(Get(row, "ID"))
  }

  /** The comparator `(a, b) => key(a) - key(b)` is positive: b must come before a. */
  predicate GoesAfter(a: Value, b: Value, key: SortKey) {
    IsPositive(Subtract(key(a), key(b)))
  }

  /** Inserts x after every row that does not go after it. */
  function InsertRow(x: Value, sorted: seq<Value>, key: SortKey): (r: seq<Value>)
    ensures multiset(r) == multiset(sorted) + multiset{x}
    ensures forall y :: y in r <==> y == x || y in sorted
    ensures |r| == |sorted| + 1
  {
    if sorted == [] then [x]
    else if GoesAfter(sorted[0], x, key) then [x] + sorted
    else
      assert sorted == [sorted[0]] + sorted[1..];
      [sorted[0]] + InsertRow(x, sorted[1..], key)
  }

  /** `rows.sort((a, b) => key(a) - key(b))`, as a stable insertion sort. */
  function SortRows(rows: seq<Value>, key: SortKey): (r: seq<Value>)
    ensures multiset(r) == multiset(rows)
    ensures |r| == |rows|
  {
    if rows == [] then []
    else
      assert rows == rows[..|rows| - 1] + [rows[|rows| - 1]];
      InsertRow(rows[|rows| - 1], SortRows(rows[..|rows| - 1], key), key)
  }

  predicate FiniteKeys(rows: seq<Value>, key: SortKey) {
    forall y :: y in rows ==> key(y).Finite?
  }

  function KeyValue(row: Value, key: SortKey): real
    requires key(row).Finite?
  {
    RealOf(key(row).d)
  }

  /** Finite keys, in ascending order of the numbers they denote. */
  predicate Ascending(rows: seq<Value>, key: SortKey) {
    && FiniteKeys(rows, key)
    && forall i, j :: 0 <= i < j < |rows| ==> KeyValue(rows[i], key) <= KeyValue(rows[j], key)
  }

  /** Every row of `rows` has a finite key no smaller than v. */
  predicate AllAtLeast(rows: seq<Value>, key: SortKey, v: real) {
    forall y :: y in rows ==> key(y).Finite? && KeyValue(y, key) >= v
  }

  lemma GoesAfterMeansLarger(a: Value, b: Value, key: SortKey)
    requires key(a).Finite? && key(b).Finite?
    ensures GoesAfter(a, b, key) <==> KeyValue(a, key) > KeyValue(b, key)
  {
    SubtractPositive(key(a).d, key(b).d);
  }

  lemma AscendingTail(s: seq<Value>, key: SortKey)
    requires Ascending(s, key) && s != []
    ensures Ascending(s[1..], key) && AllAtLeast(s[1..], key, KeyValue(s[0], key))
  {
    forall i, j | 0 <= i < j < |s[1..]| ensures KeyValue(s[1..][i], key) <= KeyValue(s[1..][j], key) {
      assert s[1..][i] == s[i + 1] && s[1..][j] == s[j + 1];
    }
    forall y | y in s[1..] ensures key(y).Finite? && KeyValue(y, key) >= KeyValue(s[0], key) {
      var k :| 0 <= k < |s[1..]| && s[1..][k] == y;
      assert y == s[k + 1];
    }
  }

  lemma AscendingCons(h: Value, s: seq<Value>, key: SortKey)
    requires key(h).Finite? && Ascending(s, key) && AllAtLeast(s, key, KeyValue(h, key))
    ensures Ascending([h] + s, key)
  {
    var r := [h] + s;
    forall i, j | 0 <= i < j < |r| ensures KeyValue(r[i], key) <= KeyValue(r[j], key) {
      assert r[j] == s[j - 1] && r[j] in s;
      if i > 0 {
        assert r[i] == s[i - 1];
      }
    }
  }

  lemma {:induction false} InsertRowAscending(x: Value, sorted: seq<Value>, key: SortKey)
    requires Ascending(sorted, key) && key(x).Finite?
    ensures Ascending(InsertRow(x, sorted, key), key)
  {
    if sorted == [] {
      assert InsertRow(x, sorted, key) == [x];
    } else {
      GoesAfterMeansLarger(sorted[0], x, key);
      AscendingTail(sorted, key);
      if GoesAfter(sorted[0], x, key) {
        assert AllAtLeast(sorted, key, KeyValue(x, key)) by {
          assert sorted == [sorted[0]] + sorted[1..];
        }
        AscendingCons(x, sorted, key);
      } else {
        var tail := InsertRow(x, sorted[1..], key);
        InsertRowAscending(x, sorted[1..], key);
        AscendingCons(sorted[0], tail, key);
      }
    }
  }

  /** With numeric keys the sort orders the rows by ascending key. */
  lemma {:induction false} SortRowsAscending(rows: seq<Value>, key: SortKey)
    requires FiniteKeys(rows, key)
    ensures Ascending(SortRows(rows, key), key)
  {
    if rows != [] {
      var init := rows[..|rows| - 1];
      assert FiniteKeys(init, key) by {
        forall y | y in init ensures key(y).Finite? {
          assert y in rows;
        }
      }
      SortRowsAscending(init, key);
      InsertRowAscending(rows[|rows| - 1], SortRows(init, key), key);
    }
  }

  /** The orders of a reply, each decorated for display, in reply order. */
  function ShapeAll(items: seq<Value>, formatDate: DateFormatFn): (r: seq<Value>)
    requires NoNullish(items)
    ensures |r| == |items| && forall i :: 0 <= i < |items| ==> r[i] == ShapeRow(items[i], formatDate)
  {
    seq(|items|, i requires 0 <= i < |items| => ShapeRow(items[i], formatDate))
  }

  /** The rows `getPurchaseList` stores: each fetched order decorated, then sorted by ID. */
  function ShapeRows(items: seq<Value>, formatDate: DateFormatFn): (r: seq<Value>)
    requires NoNullish(items)
    ensures |r| == |items|
    ensures multiset(r) == multiset(ShapeAll(items, formatDate))
  {
    SortRows(ShapeAll(items, formatDate), IdKey)
  }

  /** Every stored row is a decorated fetched order with its `Farmu-<ID>` number. */
  lemma ShapeRowsDecorated(items: seq<Value>, formatDate: DateFormatFn, row: Value)
    requires NoNullish(items) && row in ShapeRows(items, formatDate)
    ensures exists i :: 0 <= i < |items| && row == ShapeRow(items[i], formatDate)
    ensures row.Obj? && row.props["NumberOrder"] == Str("Farmu-" + ToString(Get(row, "ID")))
  {
    var shaped := ShapeAll(items, formatDate);
    assert row in multiset(ShapeRows(items, formatDate));
    assert row in multiset(shaped);
    var i :| 0 <= i < |shaped| && shaped[i] == row;
    assert row == ShapeRow(items[i], formatDate);
    ShapeRowKeepsId(items[i], formatDate);
  }

  /** Decorating an order keeps its ID, hence its sort key. */
  lemma ShapeRowKeepsId(item: Value, formatDate: DateFormatFn)
    requires !IsNullish(item)
    ensures Get(ShapeRow(item, formatDate), "ID") == Get(item, "ID")
    ensures IdKey(ShapeRow(item, formatDate)) == IdKey(item)
  {
    assert "ID" !in RowDecorations;
  }

  /** With numeric IDs the stored rows are in ascending ID order. */
  lemma ShapeRowsAscending(items: seq<Value>, formatDate: DateFormatFn)
    requires NoNullish(items)
    requires forall i :: 0 <= i < |items| ==> IdKey(items[i]).Finite?
    ensures Ascending(ShapeRows(items, formatDate), IdKey)
  {
    var shaped := ShapeAll(items, formatDate);
    assert FiniteKeys(shaped, IdKey) by {
      forall y | y in shaped ensures IdKey(y).Finite? {
        var i :| 0 <= i < |shaped| && shaped[i] == y;
        ShapeRowKeepsId(items[i], formatDate);
      }
    }
    SortRowsAscending(shaped, IdKey);
  }

  /** What a settled `GET /purchase` leads to. */
  datatype ListOutcome =
    | Fetched(rows: seq<Value>)
    | NothingFetched
    | Failed(error: Value, notFound: bool)

  /**
   * The outcome of the reply: an array of orders is shaped and sorted; an
   * empty array, or a reply that is not an object, changes nothing; calling
   * `.map` on a non-array object, or reading `.ID` of a null entry, throws.
   */
  function ListFetch(response: HttpResult, formatDate: DateFormatFn): (r: ListOutcome)
    ensures r.Fetched? ==> response.Response? && response.data.Arr? && NoNullish(response.data.elems)
                            && r.rows == ShapeRows(response.data.elems, formatDate) && |r.rows| > 0
    ensures response.Response? && response.data.Arr? && NoNullish(response.data.elems) && |response.data.elems| > 0
            ==> r == Fetched(ShapeRows(response.data.elems, formatDate))
    ensures response.Response? && response.data.Arr? && |response.data.elems| == 0 ==> r.NothingFetched?
    ensures response.Response? && (response.data.Obj? || (response.data.Arr? && !NoNullish(response.data.elems)))
            ==> r == Failed(TypeError, false)
    ensures response.Response? && !response.data.Arr? && !response.data.Obj? ==> r.NothingFetched?
    ensures response.HttpError? ==> r == Failed(response.error, IsNotFound(response.error))
    ensures r.Failed? && r.notFound ==> response.HttpError?
  {
    match response
    case Response(data) =>
      if data.Arr? then
        if NoNullish(data.elems) then
          var rows := ShapeRows(data.elems, formatDate);
          if |rows| > 0 then Fetched(rows) else NothingFetched
        else Failed(TypeError, false)
      else if data.Obj? then Failed(TypeError, false)
      else NothingFetched
    case HttpError(e) => Failed(e, IsNotFound(e))
  }

  /** `getPurchaseSuccess` stores the payload's `Rows` property. */
  function RowsOf(payload: Value): Value {
    Get(payload, "Rows")
  }

  /** The argument the 404 branch of `getPurchaseList` passes to `getPurchaseSuccess`. */
  const NotFoundPayloadAsWritten: Value := Arr([])

  /** The payload the 404 branch is evidently meant to pass: an empty list of rows. */
  const NotFoundPayload: Value := Obj(map["Rows" := Arr([])])

  /** The fields of the slice that refreshing the list and creating an order settle. */
  datatype ListState = ListState(list: Value, page: Value, totalRows: Value, totalPages: Value, error: Value, isLoading: bool)

  /**
   * The fields once the `GET /purchase` of `getPurchaseList(requestedPage)`
   * settles with the given outcome; `onNotFound` is what the 404 branch hands
   * to `getPurchaseSuccess`.
   */
  function Settled(s: ListState, outcome: ListOutcome, requestedPage: Value, onNotFound: Value): (r: ListState)
    ensures outcome.Fetched? ==>
              && r.list == Arr(outcome.rows) && r.page == requestedPage
              && r.totalRows == Undefined && r.totalPages == Undefined && r.error == Null && !r.isLoading
    ensures outcome.NothingFetched? ==> r == s
    ensures outcome.Failed? ==> r.error == outcome.error && !r.isLoading
    ensures outcome.Failed? && !outcome.notFound ==> r == s.(error := outcome.error, isLoading := false)
    ensures outcome.Failed? && outcome.notFound ==>
              && r.list == RowsOf(onNotFound) && r.page == Get(onNotFound, "page")
              && r.totalRows == Get(onNotFound, "totalRows") && r.totalPages == Get(onNotFound, "totalPages")
    ensures s.list.Arr? && RowsOf(onNotFound).Arr? ==> r.list.Arr?
  {
    match outcome
    case Fetched(rows) => ListState(Arr(rows), requestedPage, Undefined, Undefined, Null, false)
    case NothingFetched => s
    case Failed(e, notFound) =>
      if notFound then
        ListState(RowsOf(onNotFound), Get(onNotFound, "page"), Get(onNotFound, "totalRows"),
                  Get(onNotFound, "totalPages"), e, false)
      else s.(error := e, isLoading := false)
  }

  /**
   * The fields once `POST /purchase` settles: the created order is pushed onto
   * the list and the redirect reads its `ID`; a failure of any of these is
   * recorded by `hasError`.
   */
  function AfterPost(s: ListState, post: HttpResult): (r: ListState)
    ensures !r.isLoading
    ensures r.page == s.page && r.totalRows == s.totalRows && r.totalPages == s.totalPages
    ensures post.HttpError? ==> r.list == s.list && r.error == post.error
    ensures post.Response? && s.list.Arr? ==>
              && r.list == Arr(s.list.elems + [post.data])
              && r.error == if IsNullish(post.data) then TypeError else s.error
    ensures post.Response? && !s.list.Arr? ==> r.list == s.list && r.error == TypeError
  {
    match post
    case HttpError(e) => s.(error := e, isLoading := false)
    case Response(created) =>
      if s.list.Arr? then
        var pushed := s.(list := Arr(s.list.elems + [created]), isLoading := false);
        if IsNullish(created) then pushed.(error := TypeError) else pushed
      else s.(error := TypeError, isLoading := false)
  }

  /** After a 404 the list, as written, is `undefined`, whatever it was before. */
  lemma NotFoundAsWrittenLosesList(s: ListState, e: Value, requestedPage: Value, formatDate: DateFormatFn)
    requires IsNotFound(e)
    ensures Settled(s, ListFetch(HttpError(e), formatDate), requestedPage, NotFoundPayloadAsWritten).list == Undefined
    ensures Settled(s, ListFetch(HttpError(e), formatDate), requestedPage, NotFoundPayload).list == Arr([])
  {
  }

  /**
   * As written, creating an order after a refresh that answered 404 ends in a
   * TypeError: `push` is called on `undefined`. The order was posted all the same.
   */
  method NotFoundAsWrittenBreaksAdd(store: PurchaseStore, data: Props, articles: ArticlesFn, e: Value,
                                    formatDate: DateFormatFn, created: Value)
    requires IsNotFound(e)
    modifies store`listPurchase, store`page, store`totalRows, store`totalPages, store`isLoading, store`error
    ensures store.error == TypeError && store.listPurchase == Undefined && !store.isLoading
  {
    var _ := store.AddPurchase(data, articles, HttpError(e), formatDate, Response(created), NotFoundPayloadAsWritten);
  }

  /** With the corrected 404 branch the created order becomes the only element of the list. */
  method NotFoundThenAdd(store: PurchaseStore, data: Props, articles: ArticlesFn, e: Value,
                         formatDate: DateFormatFn, created: Value)
    requires IsNotFound(e)
    modifies store`listPurchase, store`page, store`totalRows, store`totalPages, store`isLoading, store`error
    ensures store.listPurchase == Arr([created]) && !store.isLoading
    ensures !IsNullish(created) ==> store.error == e
  {
    var _ := store.AddPurchase(data, articles, HttpError(e), formatDate, Response(created), NotFoundPayload);
  }

  // ---------------------------------------------------------------------------
  // Request bodies

  /** The body `addPurchase` posts: falsy header discounts become 0, the articles are converted. */
  function AddPurchasePayload(data: Props, articles: ArticlesFn): (r: Props)
    ensures r.Keys == data.Keys + {"Discount", "DiscountEarliyPay", "Articles"}
    ensures Truthy(Get(Obj(data), "Discount")) ==> r["Discount"] == data["Discount"]
    ensures !Truthy(Get(Obj(data), "Discount")) ==> r["Discount"] == Num(Zero)
    ensures Truthy(Get(Obj(data), "DiscountEarliyPay")) ==> r["DiscountEarliyPay"] == data["DiscountEarliyPay"]
    ensures !Truthy(Get(Obj(data), "DiscountEarliyPay")) ==> r["DiscountEarliyPay"] == Num(Zero)
    ensures r["Articles"] == articles(Get(Obj(data), "Articles"))
    ensures forall k :: k in data && k !in {"Discount", "DiscountEarliyPay", "Articles"} ==> r[k] == data[k]
  {
    data + map[
      "Discount" := Or(Get(Obj(data), "Discount"), Num(Zero)),
      "DiscountEarliyPay" := Or(Get(Obj(data), "DiscountEarliyPay"), Num(Zero)),
      "Articles" := articles(Get(Obj(data), "Articles"))
    ]
  }

  /** The body `deletePurchase` puts: the stored order with `status: 2`; the order's own ID wins over the argument. */
  function CancelPayload(id: Number, order: Props): (r: Props)
    ensures r.Keys == order.Keys + {"ID", "status"}
    ensures r["status"] == Num(FromInt(2))
    ensures r["ID"] == if "ID" in order then order["ID"] else Num(id)
    ensures forall k :: k in order && k != "status" ==> r[k] == order[k]
  {
    map["ID" := Num(id)] + order + map["status" := Num(FromInt(2))]
  }

  /** The order `getIDPurchase` stores for a reply: the fetched order with its lines transformed. */
  function FetchedOrder(response: HttpResult, transforms: TransformsArticlesFn): (r: Props)
    ensures response.Response? && Truthy(response.data) ==>
              && r.Keys == Spread(response.data).Keys + {"Articles"}
              && r["Articles"] == Arr(transforms(Get(response.data, "Articles"), Get(response.data, "Products")))
              && forall k :: k in Spread(response.data) && k != "Articles" ==> r[k] == Spread(response.data)[k]
    ensures !(response.Response? && Truthy(response.data)) ==> r == map[]
  {
    if response.Response? && Truthy(response.data) then
      var data := response.data;
      Spread(data)["Articles" := Arr(transforms(Get(data, "Articles"), Get(data, "Products")))]
    else map[]
  }

  /** The draft `getIDPurchase` leaves for a reply: the selected transformed lines, or none. */
  function FetchedDraft(response: HttpResult, transforms: TransformsArticlesFn): (r: seq<Value>)
    ensures forall x :: x in r ==> IsSelected(x)
    ensures response.Response? && Truthy(response.data) && NoNullish(transforms(Get(response.data, "Articles"), Get(response.data, "Products")))
            ==> r == SelectLines(transforms(Get(response.data, "Articles"), Get(response.data, "Products")))
    ensures !(response.Response? && Truthy(response.data)) ==> r == []
  {
    if response.Response? && Truthy(response.data) then
      var lines := transforms(Get(response.data, "Articles"), Get(response.data, "Products"));
      if NoNullish(lines) then SelectLines(lines) else []
    else []
  }

  // ---------------------------------------------------------------------------
  // The slice

  class PurchaseStore {
    var error: Value
    var detailsPurchase: seq<Value>
    var listPurchase: Value
    var order: Props
    var isLoading: bool
    var page: Value
    var totalRows: Value
    var totalPages: Value

    /** `initialState` */
    constructor ()
      ensures error == Null && detailsPurchase == [] && listPurchase == Arr([]) && order == map[]
      ensures !isLoading && page == Num(Zero) && totalRows == Num(Zero) && totalPages == Num(Zero)
    {
      error := Null;
      detailsPurchase := [];
      listPurchase := Arr([]);
      order := map[];
      isLoading := false;
      page := Num(Zero);
      totalRows := Num(Zero);
      totalPages := Num(Zero);
    }

    /** The fields `getPurchaseList` and `addPurchase` settle. */
    function ListFields(): ListState
      reads this
    {
      ListState(listPurchase, page, totalRows, totalPages, error, isLoading)
    }

    // --- Reducers

    method Loading()
      modifies this`isLoading
      ensures isLoading
    {
      isLoading := true;
    }

    method HasError(payload: Value)
      modifies this`error, this`isLoading
      ensures error == payload && !isLoading
    {
      error := payload;
      isLoading := false;
    }

    /** Destructuring `Rows`, `totalRows`, `totalPages` and `page` from a nullish payload would throw. */
    method GetPurchaseSuccess(payload: Value)
      requires !IsNullish(payload)
      modifies this`listPurchase, this`page, this`totalRows, this`totalPages, this`isLoading, this`error
      ensures listPurchase == RowsOf(payload) && page == Get(payload, "page")
      ensures totalRows == Get(payload, "totalRows") && totalPages == Get(payload, "totalPages")
      ensures !isLoading && error == Null
    {
      listPurchase := RowsOf(payload);
      page := Get(payload, "page");
      totalRows := Get(payload, "totalRows");
      totalPages := Get(payload, "totalPages");
      isLoading := false;
      error := Null;
    }

    method GetIDPurchaseSuccess(payload: Props)
      modifies this`order, this`isLoading
      ensures order == payload && !isLoading
    {
      order := payload;
      isLoading := false;
    }

    /** `listPurchase.push(payload)`: throws, changing nothing, when the list is not an array. */
    method AddPurchaseSuccess(payload: Value) returns (thrown: Option<Value>)
      modifies this`listPurchase, this`isLoading
      ensures old(listPurchase).Arr? ==> thrown == None && !isLoading
                                         && listPurchase == Arr(old(listPurchase).elems + [payload])
      ensures !old(listPurchase).Arr? ==> thrown == Some(TypeError)
                                          && listPurchase == old(listPurchase) && isLoading == old(isLoading)
    {
      if listPurchase.Arr? {
        listPurchase := Arr(listPurchase.elems + [payload]);
        isLoading := false;
        thrown := None;
      } else {
        thrown := Some(TypeError);
      }
    }

    method AddDetailsPurchaseSuccess(payload: seq<Value>)
      modifies this`detailsPurchase
      ensures detailsPurchase == old(detailsPurchase) + payload
    {
      detailsPurchase := detailsPurchase + payload;
    }

    /** The draft's declared type is an array of articles: callers always pass an array as `Articles`. */
    method EditDetailsPurchaseSuccess(payload: Props)
      requires "Articles" in payload && payload["Articles"].Arr?
      modifies this`detailsPurchase, this`order
      ensures detailsPurchase == payload["Articles"].elems && order == payload
    {
      detailsPurchase := payload["Articles"].elems;
      order := payload;
    }

    method ResetDetailsPurchaseSuccess()
      modifies this`detailsPurchase
      ensures detailsPurchase == []
    {
      detailsPurchase := [];
    }

    method ResetOrderSuccess()
      modifies this`order
      ensures order == map[]
    {
      order := map[];
    }

    // --- Thunks

    /**
     * What `getPurchaseList` does once the GET settles; `onNotFound` is the
     * payload its 404 branch passes to `getPurchaseSuccess`.
     */
    method SettlePurchaseList(outcome: ListOutcome, requestedPage: Value, onNotFound: Value)
      requires !IsNullish(onNotFound)
      modifies this`listPurchase, this`page, this`totalRows, this`totalPages, this`isLoading, this`error
      ensures ListFields() == Settled(old(ListFields()), outcome, requestedPage, onNotFound)
    {
      match outcome
      case Fetched(rows) =>
        var payload := Obj(map["Rows" := Arr(rows), "page" := requestedPage]);
        assert RowsOf(payload) == Arr(rows) && Get(payload, "page") == requestedPage;
        GetPurchaseSuccess(payload);
        HasError(Null);
      case NothingFetched =>
      case Failed(e, notFound) =>
        if notFound {
          GetPurchaseSuccess(onNotFound);
        }
        HasError(e);
    }

    /** `getPurchaseList(page)` */
    method GetPurchaseList(response: HttpResult, requestedPage: Value, formatDate: DateFormatFn, onNotFound: Value)
      requires !IsNullish(onNotFound)
      modifies this`listPurchase, this`page, this`totalRows, this`totalPages, this`isLoading, this`error
      ensures ListFields() == Settled(old(ListFields()).(isLoading := true), ListFetch(response, formatDate), requestedPage, onNotFound)
      ensures ListFetch(response, formatDate).NothingFetched? ==> isLoading
    {
      Loading();
      SettlePurchaseList(ListFetch(response, formatDate), requestedPage, onNotFound);
    }

    /** `addItemsPurchase(data)`: only the selected lines join the draft. */
    method AddItemsPurchase(data: seq<Value>)
      modifies this`detailsPurchase, this`error, this`isLoading
      ensures NoNullish(data) ==> detailsPurchase == old(detailsPurchase) + SelectLines(data)
                                  && error == old(error) && isLoading == old(isLoading)
      ensures !NoNullish(data) ==> detailsPurchase == old(detailsPurchase) && error == TypeError && !isLoading
    {
      if NoNullish(data) {
        AddDetailsPurchaseSuccess(SelectLines(data));
      } else {
        HasError(TypeError);
      }
    }

    /** `editItemsPurchase(data)`: the edited lines replace the draft and the summary is recomputed. */
    method EditItemsPurchase(data: seq<Value>, summary: SummaryFn)
      modifies this`detailsPurchase, this`order
      ensures detailsPurchase == data
      ensures order == old(order) + Spread(summary(Arr(data), ParseFloat(Get(Obj(old(order)), "Discount"))))
                       + map["Articles" := Arr(data)]
    {
      var summaryOrder := summary(Arr(data), ParseFloat(Get(Obj(order), "Discount")));
      EditDetailsPurchaseSuccess(order + Spread(summaryOrder) + map["Articles" := Arr(data)]);
    }

    /** `updateSummaryPurchase(discount)`: the stored order's summary is recomputed for a new discount. */
    method UpdateSummaryPurchase(discount: Number, summary: SummaryFn)
      modifies this`order, this`isLoading
      ensures order == old(order) + Spread(summary(Get(Obj(old(order)), "Articles"), discount))
                       + map["Discount" := Num(discount)]
      ensures order["Discount"] == Num(discount) && !isLoading
    {
      var summaryOrder := summary(Get(Obj(order), "Articles"), discount);
      GetIDPurchaseSuccess(order + Spread(summaryOrder) + map["Discount" := Num(discount)]);
    }

    /**
     * `deleteItemsPurchase(id)`: every line with that ID leaves the draft, and
     * the order's articles and summary are those of the remaining lines.
     */
    method DeleteItemsPurchase(id: Number, summary: SummaryFn)
      modifies this`detailsPurchase, this`order, this`error, this`isLoading
      ensures NoNullish(old(detailsPurchase)) ==>
                && detailsPurchase == WithoutId(old(detailsPurchase), id)
                && order == old(order) + Spread(summary(Arr(detailsPurchase), ParseFloat(Get(Obj(old(order)), "Discount"))))
                            + map["Articles" := Arr(detailsPurchase)]
                && order["Articles"] == Arr(detailsPurchase)
                && error == old(error) && isLoading == old(isLoading)
      ensures !NoNullish(old(detailsPurchase)) ==>
                detailsPurchase == old(detailsPurchase) && order == old(order) && error == TypeError && !isLoading
    {
      if NoNullish(detailsPurchase) {
        var items := WithoutId(detailsPurchase, id);
        var summaryOrder := summary(Arr(items), ParseFloat(Get(Obj(order), "Discount")));
        EditDetailsPurchaseSuccess(order + Spread(summaryOrder) + map["Articles" := Arr(items)]);
      } else {
        HasError(TypeError);
      }
    }

    /** `resetItemsPurchase()` */
    method ResetItemsPurchase()
      modifies this`detailsPurchase, this`isLoading
      ensures detailsPurchase == [] && isLoading
    {
      Loading();
      ResetDetailsPurchaseSuccess();
    }

    /** `resetOrder()` */
    method ResetOrder()
      modifies this`order
      ensures order == map[]
    {
      ResetOrderSuccess();
    }

    /** `getIDPurchase(id)`: the draft and the order are reset, then filled from the reply. */
    method GetIDPurchase(response: HttpResult, transforms: TransformsArticlesFn)
      modifies this`order, this`detailsPurchase, this`isLoading, this`error
      ensures order == FetchedOrder(response, transforms)
      ensures detailsPurchase == FetchedDraft(response, transforms)
      ensures response.Response? && Truthy(response.data) ==>
                var lines := transforms(Get(response.data, "Articles"), Get(response.data, "Products"));
                && !isLoading
                && (NoNullish(lines) ==> detailsPurchase == SelectLines(lines) && error == old(error))
                && (!NoNullish(lines) ==> detailsPurchase == [] && error == TypeError)
      ensures response.Response? && !Truthy(response.data) ==> detailsPurchase == [] && isLoading && error == old(error)
      ensures response.HttpError? ==> detailsPurchase == [] && !isLoading && error == response.error
    {
      Loading();
      ResetOrder();
      ResetItemsPurchase();
      match response
      case Response(data) =>
        if Truthy(data) {
          var lines := transforms(Get(data, "Articles"), Get(data, "Products"));
          AddItemsPurchase(lines);
          GetIDPurchaseSuccess(Spread(data)["Articles" := Arr(lines)]);
        }
      case HttpError(e) =>
        HasError(e);
    }

    /**
     * `addPurchase(data)`: refreshes the list, posts the order with its
     * defaults and appends the created order to the list.
     */
    method AddPurchase(data: Props, articles: ArticlesFn, listResponse: HttpResult, formatDate: DateFormatFn,
                       postResponse: HttpResult, onNotFound: Value)
      returns (posted: Props)
      requires !IsNullish(onNotFound)
      modifies this`listPurchase, this`page, this`totalRows, this`totalPages, this`isLoading, this`error
      ensures posted == AddPurchasePayload(data, articles)
      ensures ListFields() == AfterPost(Settled(old(ListFields()).(isLoading := true), ListFetch(listResponse, formatDate),
                                                Num(FromInt(1)), onNotFound), postResponse)
    {
      Loading();
      GetPurchaseList(listResponse, Num(FromInt(1)), formatDate, onNotFound);
      posted := AddPurchasePayload(data, articles);
      match postResponse
      case Response(created) =>
        var thrown := AddPurchaseSuccess(created);
        if thrown.Some? {
          HasError(thrown.value);
        } else if IsNullish(created) {
          // the redirect reads `response.data.ID`
          HasError(TypeError);
        }
      case HttpError(e) =>
        HasError(e);
    }

    /**
     * `deletePurchase(id)`: fetches the order, puts it back with `status: 2`
     * and, once the put succeeds, refreshes the list; the refresh settles
     * after the thunk's own last dispatch.
     */
    method DeletePurchase(id: Number, getResponse: HttpResult, transforms: TransformsArticlesFn,
                          putResponse: HttpResult, listResponse: HttpResult, formatDate: DateFormatFn, onNotFound: Value)
      returns (posted: Props)
      requires !IsNullish(onNotFound)
      modifies this`order, this`detailsPurchase, this`listPurchase, this`page, this`totalRows, this`totalPages
      modifies this`isLoading, this`error
      ensures posted == CancelPayload(id, FetchedOrder(getResponse, transforms))
      ensures posted["status"] == Num(FromInt(2))
      ensures order == FetchedOrder(getResponse, transforms)
      ensures detailsPurchase == FetchedDraft(getResponse, transforms)
      ensures putResponse.Response? ==>
                ListFields() == Settled(old(ListFields()).(error := Null, isLoading := false),
                                        ListFetch(listResponse, formatDate), Num(FromInt(1)), onNotFound)
      ensures putResponse.HttpError? ==> ListFields() == old(ListFields()).(error := putResponse.error, isLoading := false)
    {
      GetIDPurchase(getResponse, transforms);
      posted := CancelPayload(id, order);
      SettleCancel(putResponse, listResponse, formatDate, onNotFound);
    }

    /** What `deletePurchase` does once the put settles: refresh the list and clear the error, or record the failure. */
    method SettleCancel(putResponse: HttpResult, listResponse: HttpResult, formatDate: DateFormatFn, onNotFound: Value)
      requires !IsNullish(onNotFound)
      modifies this`listPurchase, this`page, this`totalRows, this`totalPages, this`isLoading, this`error
      ensures putResponse.Response? ==>
                ListFields() == Settled(old(ListFields()).(error := Null, isLoading := false),
                                        ListFetch(listResponse, formatDate), Num(FromInt(1)), onNotFound)
      ensures putResponse.HttpError? ==> ListFields() == old(ListFields()).(error := putResponse.error, isLoading := false)
    {
      match putResponse
      case Response(_) =>
        Loading();
        HasError(Null);
        SettlePurchaseList(ListFetch(listResponse, formatDate), Num(FromInt(1)), onNotFound);
      case HttpError(e) =>
        HasError(e);
    }
  }
}
