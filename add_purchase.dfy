/**
 * The page that creates a purchase order: the summary shown for the draft,
 * the payload assembled on submit and the guards on the two discount inputs.
 * The draft itself lives in the purchase slice; form validation, rendering
 * and navigation are not part of this model.
 */
module AddPurchasePage {
  import opened JsValue
  import opened PurchaseReducer

  /** `getInitialValues()` */
  const InitialValues: Props := map[
    "Notes" := Str(""),
    "Discount" := Str(""),
    "SupplierID" := Str(""),
    "WarehouseID" := Str(""),
    "DiscountEarliyPay" := Str("")
  ]

  /**
   * The memoised `data`: `false` for an empty draft, otherwise the summary of
   * the draft lines under the header discount coerced by `Number(d) || 0`.
   */
  function SummaryMemo(lines: seq<Value>, discount: Value, summary: SummaryFn): (r: Value)
    ensures |lines| == 0 ==> r == Bool(false)
    ensures |lines| > 0 ==> exists d: Number :: !d.NaN? && r == summary(Arr(lines), d)
  {
    if |lines| > 0 then
      NumberOrZeroIsNumber(discount);
      summary(Arr(lines), NumberOrZero(discount))
    else Bool(false)
  }

  /** The summary of a non-empty draft is taken under the discount the header shows, 0 when it shows none. */
  lemma SummaryMemoDiscount(lines: seq<Value>, discount: Value, summary: SummaryFn)
    requires |lines| > 0
    ensures discount == Undefined || discount == Num(NaN) ==> SummaryMemo(lines, discount, summary) == summary(Arr(lines), Zero)
    ensures discount.Num? && !discount.n.NaN? ==> SummaryMemo(lines, discount, summary) == summary(Arr(lines), discount.n)
  {
    NumberOrZeroIsNumber(discount);
  }

  /** Names the submit handler writes after the summary, so the summary cannot override them. */
  const HeaderKeys: set<string> := {"Articles", "Discount", "DiscountEarliyPay"}

  /**
   * The order `onSubmit` passes to `addPurchase`: form values, then
   * `Status: 0`, then the summary's fields, then the draft lines and the two
   * header discounts; a later key wins.
   */
  function AssemblePayload(values: Props, data: Value, lines: seq<Value>): (r: Props)
    ensures r.Keys == values.Keys + {"Status"} + Spread(data).Keys + HeaderKeys
    ensures r["Articles"] == Arr(lines)
    ensures r["Discount"] == Get(Obj(values), "Discount")
    ensures r["DiscountEarliyPay"] == Num(ToNumber(Get(Obj(values), "DiscountEarliyPay")))
    ensures r["Status"] == if "Status" in Spread(data) then Spread(data)["Status"] else Num(Zero)
    ensures forall k :: k in Spread(data) && k !in HeaderKeys ==> r[k] == Spread(data)[k]
    ensures forall k :: k in values && k !in Spread(data) && k !in HeaderKeys && k != "Status" ==> r[k] == values[k]
  {
    var header := map[
      "Articles" := Arr(lines),
      "Discount" := Get(Obj(values), "Discount"),
      "DiscountEarliyPay" := Num(ToNumber(Get(Obj(values), "DiscountEarliyPay")))
    ];
    assert header.Keys == HeaderKeys;
    values + map["Status" := Num(Zero)] + Spread(data) + header
  }

  /**
   * What reaches the server for a submitted draft: the lines converted by
   * `Articles`, the form's Discount or 0 when it is falsy, and a numeric early
   * payment discount that is never NaN.
   */
  lemma PostedHeader(values: Props, data: Value, lines: seq<Value>, articles: ArticlesFn)
    ensures var posted := AddPurchasePayload(AssemblePayload(values, data, lines), articles);
      && posted["Articles"] == articles(Arr(lines))
      && posted["Discount"] == Or(Get(Obj(values), "Discount"), Num(Zero))
      && posted["DiscountEarliyPay"].Num? && !posted["DiscountEarliyPay"].n.NaN?
      && (Truthy(Get(Obj(values), "DiscountEarliyPay")) && ToNumber(Get(Obj(values), "DiscountEarliyPay")).Finite?
          && ToNumber(Get(Obj(values), "DiscountEarliyPay")) != Zero
          ==> posted["DiscountEarliyPay"] == Num(ToNumber(Get(Obj(values), "DiscountEarliyPay"))))
  {
    var assembled := AssemblePayload(values, data, lines);
    assert Get(Obj(assembled), "Discount") == Get(Obj(values), "Discount");
    assert Get(Obj(assembled), "Articles") == Arr(lines);
    var n := ToNumber(Get(Obj(values), "DiscountEarliyPay"));
    assert Get(Obj(assembled), "DiscountEarliyPay") == Num(n);
  }

  /** The key handler clears the field on Delete, or on Backspace over the text "0". */
  predicate ClearsField(key: string, text: string) {
    key == "Delete" || (key == "Backspace" && text == "0")
  }

  /** The number a discount input takes for the typed text, when the guard `Number(text) >= 0` admits it. */
  function AcceptedInput(text: string): (r: Option<Number>)
    ensures r.Some? <==> AtLeastZero(StringToNumber(text))
    ensures r.Some? ==> r.value == StringToNumber(text)
  {
    var n := ToNumber(Str(text));
    if AtLeastZero(n) then Some(n) else None
  }

  /** An admitted discount is a number no smaller than 0; an empty input counts as 0. */
  lemma AcceptedInputNonNegative(text: string)
    ensures AcceptedInput(text).Some? ==> !AcceptedInput(text).value.NaN?
    ensures AcceptedInput(text).Some? && AcceptedInput(text).value.Finite? ==> RealOf(AcceptedInput(text).value.d) >= 0.0
    ensures Trim(text) == "" ==> AcceptedInput(text) == Some(Zero)
  {
    var r := AcceptedInput(text);
    if r.Some? && r.value.Finite? {
      PositiveMeansRealPositive(r.value.d);
    }
  }

  /** The form state of the page, and the slice it dispatches to. */
  class AddPurchaseForm {
    var values: Props
    var discount: Value
    var discountEarliyPay: Value
    var isSubmitting: bool

    /** Creating the page resets the draft. */
    constructor (store: PurchaseStore)
      modifies store`detailsPurchase, store`isLoading
      ensures values == InitialValues && discount == Undefined && discountEarliyPay == Undefined && !isSubmitting
      ensures store.detailsPurchase == [] && store.isLoading
    {
      values := InitialValues;
      discount := Undefined;
      discountEarliyPay := Undefined;
      isSubmitting := false;
      store.ResetItemsPurchase();
    }

    /**
     * `onSubmit`: an empty draft dispatches nothing; otherwise the assembled
     * order goes to `addPurchase`, whose posted body is returned, and the
     * store settles as `addPurchase` leaves it.
     */
    method OnSubmit(store: PurchaseStore, summary: SummaryFn, articles: ArticlesFn, listResponse: HttpResult,
                    formatDate: DateFormatFn, postResponse: HttpResult, onNotFound: Value)
      returns (posted: Option<Props>)
      requires !IsNullish(onNotFound)
      modifies this`isSubmitting
      modifies store`listPurchase, store`page, store`totalRows, store`totalPages, store`isLoading, store`error
      ensures |store.detailsPurchase| == 0 ==> posted == None && unchanged(store)
      ensures |store.detailsPurchase| > 0 ==>
                posted == Some(AddPurchasePayload(
                  AssemblePayload(values, SummaryMemo(store.detailsPurchase, discount, summary), store.detailsPurchase),
                  articles))
      ensures |store.detailsPurchase| > 0 ==>
                store.ListFields() == AfterPost(Settled(old(store.ListFields()).(isLoading := true),
                                                        ListFetch(listResponse, formatDate), Num(FromInt(1)), onNotFound),
                                                postResponse)
      ensures store.detailsPurchase == old(store.detailsPurchase)
      ensures !isSubmitting
    {
      isSubmitting := true;
      if |store.detailsPurchase| > 0 {
        var data := SummaryMemo(store.detailsPurchase, discount, summary);
        var newValue := AssemblePayload(values, data, store.detailsPurchase);
        var body := store.AddPurchase(newValue, articles, listResponse, formatDate, postResponse, onNotFound);
        posted := Some(body);
      } else {
        posted := None;
      }
      isSubmitting := false;
    }

    /** `onKeyDown` of the Discount input. */
    method OnDiscountKeyDown(key: string, text: string)
      modifies this`values
      ensures ClearsField(key, text) ==> values == old(values)["Discount" := Str("")]
      ensures !ClearsField(key, text) ==> values == old(values)
    {
      if ClearsField(key, text) {
        values := values["Discount" := Str("")];
      }
    }

    /** `onChange` of the Discount input: an admitted value updates both the state and the field. */
    method OnDiscountChange(text: string)
      modifies this`values, this`discount
      ensures AcceptedInput(text).Some? ==>
                && discount == Num(AcceptedInput(text).value)
                && values == old(values)["Discount" := Num(AcceptedInput(text).value)]
      ensures AcceptedInput(text).None? ==> discount == old(discount) && values == old(values)
    {
      var n := ToNumber(Str(text));
      if AtLeastZero(n) {
        discount := Num(n);
        values := values["Discount" := Num(n)];
      }
    }

    /** `onKeyDown` of the early payment discount input. */
    method OnDiscountEarliyPayKeyDown(key: string, text: string)
      modifies this`values
      ensures ClearsField(key, text) ==> values == old(values)["DiscountEarliyPay" := Str("")]
      ensures !ClearsField(key, text) ==> values == old(values)
    {
      if ClearsField(key, text) {
        values := values["DiscountEarliyPay" := Str("")];
      }
    }

    /**
     * `onChange` of the early payment discount input: an admitted value
     * updates the field; the `discountEarliyPay` state is set to itself, so it
     * keeps its value.
     */
    method OnDiscountEarliyPayChange(text: string)
      modifies this`values, this`discountEarliyPay
      ensures AcceptedInput(text).Some? ==> values == old(values)["DiscountEarliyPay" := Num(AcceptedInput(text).value)]
      ensures AcceptedInput(text).None? ==> values == old(values)
      ensures discountEarliyPay == old(discountEarliyPay)
    {
      var n := ToNumber(Str(text));
      if AtLeastZero(n) {
        discountEarliyPay := discountEarliyPay;
        values := values["DiscountEarliyPay" := Num(n)];
      }
    }
  }
}
