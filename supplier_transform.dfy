/**
 * The supplier export: each supplier record becomes one spreadsheet row, with
 * the identifier and the money fields defaulted to 0, the text fields printed
 * with `toString` and the status coerced to a boolean.
 */
module SupplierTransform {
  import opened JsValue

  /** One exported supplier; the field names are the spreadsheet's column keys. */
  datatype SupplierRow = SupplierRow(
    ID: Value,
    EmailContact: Value,
    Nit: Value,
    BusinessName: Value,
    PhoneContact: Value,
    Status: Value,
    PaymenTerm: Value,
    leadTimeBaq: Value,
    LeadTimeBog: Value,
    Discount: Value,
    DaysPayment: Value,
    Cupo: Value,
    NameContact: Value)

  /** The row exported for one supplier record. */
  function ExportSupplier(item: Value): (r: SupplierRow)
    ensures !Truthy(Get(item, "ID")) ==> r.ID == Num(Zero)
    ensures Truthy(Get(item, "ID")) ==> r.ID == Get(item, "ID")
    ensures r.Status == Bool(Truthy(Get(item, "Status")))
    ensures r.BusinessName == Get(item, "BusinessName")
    ensures r.leadTimeBaq == Num(ToNumber(Get(item, "LeadTimeBaq")))
    ensures r.LeadTimeBog == Num(ToNumber(Get(item, "LeadTimeBog")))
    ensures r.Discount.Num? && !r.Discount.n.NaN?
    ensures ToNumber(Get(item, "Discount")).NaN? ==> r.Discount == Num(Zero)
    ensures !ToNumber(Get(item, "Discount")).NaN? ==> r.Discount == Num(ToNumber(Get(item, "Discount")))
    ensures r.Cupo.Num? && !r.Cupo.n.NaN?
    ensures ToNumber(Get(item, "Cupo")).NaN? ==> r.Cupo == Num(Zero)
    ensures !ToNumber(Get(item, "Cupo")).NaN? ==> r.Cupo == Num(ToNumber(Get(item, "Cupo")))
    ensures IsNullish(Get(item, "Nit")) ==> r.Nit == Undefined
    ensures !IsNullish(Get(item, "Nit")) ==> r.Nit == Str(ToString(Get(item, "Nit")))
    ensures r.EmailContact == OptionalToString(Get(item, "EmailContact"))
    ensures r.PhoneContact == OptionalToString(Get(item, "PhoneContact"))
    ensures r.PaymenTerm == OptionalToString(Get(item, "PaymenTerm"))
    ensures r.DaysPayment == OptionalToString(Get(item, "DaysPayment"))
    ensures r.NameContact == OptionalToString(Get(item, "NameContact"))
  {
    NumberOrZeroIsNumber(Get(item, "Discount"));
    NumberOrZeroIsNumber(Get(item, "Cupo"));
    SupplierRow(
      ID := Or(Get(item, "ID"), Num(Zero)),
      EmailContact := OptionalToString(Get(item, "EmailContact")),
      Nit := OptionalToString(Get(item, "Nit")),
      BusinessName := Get(item, "BusinessName"),
      PhoneContact := OptionalToString(Get(item, "PhoneContact")),
      Status := Bool(Truthy(Get(item, "Status"))),
      PaymenTerm := OptionalToString(Get(item, "PaymenTerm")),
      leadTimeBaq := Num(ToNumber(Get(item, "LeadTimeBaq"))),
      LeadTimeBog := Num(ToNumber(Get(item, "LeadTimeBog"))),
      Discount := Num(NumberOrZero(Get(item, "Discount"))),
      DaysPayment := OptionalToString(Get(item, "DaysPayment")),
      Cupo := Num(NumberOrZero(Get(item, "Cupo"))),
      NameContact := OptionalToString(Get(item, "NameContact")))
  }

  /** The columns of an exported supplier. */
  const SupplierColumns: set<string> := {
    "ID", "EmailContact", "Nit", "BusinessName", "PhoneContact", "Status", "PaymenTerm",
    "leadTimeBaq", "LeadTimeBog", "Discount", "DaysPayment", "Cupo", "NameContact"
  }

  /** The row as the keyed object the export writes: the Barranquilla lead time under `leadTimeBaq`. */
  function Columns(row: SupplierRow): (r: Props)
    ensures r.Keys == SupplierColumns
    ensures "LeadTimeBaq" !in r && r["leadTimeBaq"] == row.leadTimeBaq
    ensures r["ID"] == row.ID && r["EmailContact"] == row.EmailContact && r["Nit"] == row.Nit
    ensures r["BusinessName"] == row.BusinessName && r["PhoneContact"] == row.PhoneContact && r["Status"] == row.Status
    ensures r["PaymenTerm"] == row.PaymenTerm && r["LeadTimeBog"] == row.LeadTimeBog && r["Discount"] == row.Discount
    ensures r["DaysPayment"] == row.DaysPayment && r["Cupo"] == row.Cupo && r["NameContact"] == row.NameContact
  {
    var cols := map[
      "ID" := row.ID,
      "EmailContact" := row.EmailContact,
      "Nit" := row.Nit,
      "BusinessName" := row.BusinessName,
      "PhoneContact" := row.PhoneContact,
      "Status" := row.Status,
      "PaymenTerm" := row.PaymenTerm,
      "LeadTimeBog" := row.LeadTimeBog,
      "Discount" := row.Discount,
      "DaysPayment" := row.DaysPayment,
      "Cupo" := row.Cupo,
      "NameContact" := row.NameContact,
      "leadTimeBaq" := row.leadTimeBaq
    ];
    assert cols.Keys == SupplierColumns;
    cols
  }

  /**
   * `SupplierExport(data)`: `undefined` for a nullish argument, one row per
   * record, in order, for an array; any other argument has no `map` to call.
   */
  function SupplierExport(data: Value): (r: Completion<Value>)
    ensures IsNullish(data) ==> r == Normal(Undefined)
    ensures data.Arr? ==> r.Normal? && r.value.Arr? && |r.value.elems| == |data.elems|
                          && forall i :: 0 <= i < |data.elems| ==> r.value.elems[i] == Obj(Columns(ExportSupplier(data.elems[i])))
    ensures !IsNullish(data) && !data.Arr? ==> r == Throw(TypeError)
  {
    match data
    case Undefined => Normal(Undefined)
    case Null => Normal(Undefined)
    case Arr(items) => Normal(Arr(seq(|items|, i requires 0 <= i < |items| => Obj(Columns(ExportSupplier(items[i]))))))
    case _ => Throw(TypeError)
  }

  /** A missing lead time is exported as NaN, while a missing discount or credit limit is exported as 0. */
  lemma MissingValuesExported(item: Value)
    requires Get(item, "LeadTimeBaq") == Undefined && Get(item, "Discount") == Undefined && Get(item, "Cupo") == Undefined
    ensures ExportSupplier(item).leadTimeBaq == Num(NaN)
    ensures ExportSupplier(item).Discount == Num(Zero) && ExportSupplier(item).Cupo == Num(Zero)
  {
  }

  /** Exporting a concatenation exports each part: the rows follow the records one for one. */
  lemma {:induction false} SupplierExportConcat(a: seq<Value>, b: seq<Value>)
    ensures SupplierExport(Arr(a + b)).value.elems
            == SupplierExport(Arr(a)).value.elems + SupplierExport(Arr(b)).value.elems
  {
    var whole := SupplierExport(Arr(a + b)).value.elems;
    var parts := SupplierExport(Arr(a)).value.elems + SupplierExport(Arr(b)).value.elems;
    assert |whole| == |parts|;
    forall i | 0 <= i < |whole| ensures whole[i] == parts[i] {
      if i < |a| {
        assert (a + b)[i] == a[i];
      } else {
        assert (a + b)[i] == b[i - |a|];
      }
    }
  }
}
