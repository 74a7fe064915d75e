/**
 * The reception list: the status chip of each reception row and, in the
 * printable receipt, the subtotal of each line and whether the IVA line is
 * printed.
 */
module ReceptionList {
  import opened JsValue

  datatype ChipColor = Warning | Success | Error | Info

  /** A status chip: its colour and its label. */
  datatype Chip = Chip(color: ChipColor, caption: string)

  /** The status a row displays: `orderStatus` when it is truthy, else `status`. */
  function DisplayedStatus(original: Props): (r: Value)
    ensures Truthy(Get(Obj(original), "orderStatus")) ==> r == original["orderStatus"]
    ensures !Truthy(Get(Obj(original), "orderStatus")) ==> r == Get(Obj(original), "status")
  {
    var orderStatus := Get(Obj(original), "orderStatus");
    if Truthy(orderStatus) then orderStatus else Get(Obj(original), "status")
  }

  /** The chip for a status, compared with `===` against each label. */
  function StatusChip(status: Value): (c: Chip)
    ensures c.caption in {"Partial", "Completed", "Cancelled", "Send", "New"}
    ensures status == Str("Partial") <==> c == Chip(Warning, "Partial")
    ensures status == Str("Completed") <==> c == Chip(Success, "Completed")
    ensures status == Str("Cancelled") <==> c == Chip(Error, "Cancelled")
    ensures status == Str("Send") <==> c == Chip(Info, "Send")
    ensures c.caption == "New" <==> status !in {Str("Partial"), Str("Completed"), Str("Cancelled"), Str("Send")}
  {
    if status == Str("Partial") then Chip(Warning, "Partial")
    else if status == Str("Completed") then Chip(Success, "Completed")
    else if status == Str("Cancelled") then Chip(Error, "Cancelled")
    else if status == Str("Send") then Chip(Info, "Send")
    else Chip(Warning, "New")
  }

  /** The chip of a row in the `Estado` column. */
  function RowChip(original: Props): (c: Chip)
    ensures Truthy(Get(Obj(original), "orderStatus")) ==> c == StatusChip(original["orderStatus"])
    ensures !Truthy(Get(Obj(original), "orderStatus")) ==> c == StatusChip(Get(Obj(original), "status"))
  {
    StatusChip(DisplayedStatus(original))
  }

  /** The colour tells the status apart except for Partial and New, which share Warning. */
  lemma ChipColorDetermined(a: Value, b: Value)
    requires StatusChip(a).color == StatusChip(b).color
    ensures StatusChip(a) == StatusChip(b) || StatusChip(a).color == Warning
  {
  }

  /** Classifying a chip's own label gives the chip back: the label names the displayed state. */
  lemma {:induction false} ChipLabelRoundTrip(status: Value)
    ensures StatusChip(Str(StatusChip(status).caption)) == StatusChip(status)
  {
    var c := StatusChip(status);
    if c.caption == "New" {
      assert Str("New") !in {Str("Partial"), Str("Completed"), Str("Cancelled"), Str("Send")} by {
        assert "New" != "Partial" && "New" != "Completed" && "New" != "Cancelled" && "New" != "Send" by {
          assert |"New"| == 3 && |"Send"| == 4;
          assert "New"[0] != "Partial"[0] && "New"[0] != "Completed"[0] && "New"[0] != "Cancelled"[0];
        }
      }
    }
  }

  /** A row with a truthy `orderStatus` is classified by it, whatever its `status`. */
  lemma OrderStatusWins(original: Props, status: Value)
    requires Truthy(Get(Obj(original), "orderStatus"))
    ensures RowChip(original["status" := status]) == RowChip(original)
  {
    assert "orderStatus" != "status" by {
      assert |"orderStatus"| != |"status"|;
    }
    assert Get(Obj(original["status" := status]), "orderStatus") == Get(Obj(original), "orderStatus");
  }

  /** `qty * price`: NaN when either factor is NaN, the exact product of two finite factors. */
  function Subtotal(qty: Number, price: Number): (r: Number)
    ensures qty.NaN? || price.NaN? ==> r.NaN?
    ensures qty.Finite? && price.Finite? ==> r.Finite? && RealOf(r.d) == RealOf(qty.d) * RealOf(price.d)
  {
    MultiplyNumbers(qty, price);
    Multiply(qty, price)
  }

  /** The subtotal of a receipt line: `item?.qty * item?.price`, both operands converted to numbers. */
  function LineSubtotal(item: Value): (r: Number)
    ensures ToNumber(Get(item, "qty")).NaN? || ToNumber(Get(item, "price")).NaN? ==> r.NaN?
    ensures ToNumber(Get(item, "qty")).Finite? && ToNumber(Get(item, "price")).Finite? ==>
              r.Finite? && RealOf(r.d) == RealOf(ToNumber(Get(item, "qty")).d) * RealOf(ToNumber(Get(item, "price")).d)
  {
    Subtotal(ToNumber(Get(item, "qty")), ToNumber(Get(item, "price")))
  }

  /** The subtotal as the receipt prints it. */
  function LineSubtotalText(item: Value): (r: string)
    ensures LineSubtotal(item).NaN? ==> r == "NaN"
    ensures forall n: nat :: n < Pow10(21) && LineSubtotal(item) == FromInt(n) ==> r == NatToDigits(n)
  {
    forall n: nat | n < Pow10(21) && LineSubtotal(item) == FromInt(n) ensures NumberToString(LineSubtotal(item)) == NatToDigits(n) {
      IntegerToString(n);
    }
    NumberToString(LineSubtotal(item))
  }

  /** A line without a quantity or a price prints "NaN" as its subtotal. */
  lemma MissingQuantityPrintsNaN(item: Value)
    requires Get(item, "qty") == Undefined || Get(item, "price") == Undefined
    ensures LineSubtotalText(item) == "NaN"
  {
  }

  /** The IVA line is printed unless `tax` is exactly the empty text. */
  predicate ShowsIva(data: Value)
    ensures !ShowsIva(data) <==> Get(data, "tax").Str? && |Get(data, "tax").s| == 0
  {
    Get(data, "tax") != Str("")
  }

  /** A receipt without a `tax` field still prints the IVA line, as does a numeric tax of 0. */
  lemma IvaLineWithoutTax(data: Value)
    requires Get(data, "tax") == Undefined || Get(data, "tax") == Num(Zero)
    ensures ShowsIva(data)
  {
  }
}
