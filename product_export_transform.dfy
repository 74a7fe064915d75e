/**
 * The product export: each product record becomes one spreadsheet row. The
 * text columns built from related records default to "", the substitutes
 * are listed by SKU separated by commas, and the category columns are
 * shifted by one level.
 */
module ProductExportTransform {
  import opened JsValue

  /** `ArrayToString(x)`: the names of the related records as one text. */
  type ArrayToStringFn = Value -> Value
  /** `SearchIDToArray(list, id)`: the entry of `list` with that ID. */
  type SearchIDToArrayFn = (Value, Value) -> Value

  /** One exported product; the field names are the spreadsheet's column keys. */
  datatype ProductRow = ProductRow(
    ID: Value,
    HandlesBaq: Value,
    HandlesBog: Value,
    Name: Value,
    Sku: Value,
    Ean: Value,
    Maker: Value,
    Trademark: Value,
    Type_Product: Value,
    Variation: Value,
    Grupo: Value,
    CategoryOne: Value,
    CategoryTwo: Value,
    Pack: Value,
    Quantity: Value,
    MakerUnit: Value,
    Weight: Value,
    Width: Value,
    PackInfo: Value,
    Height: Value,
    WrapperUnit: Value,
    Depth: Value,
    Warehouse: Value,
    IDProduct: Value,
    Substance: Value,
    Substitutes: Value,
    Status: Value,
    Keywords: Value,
    Tax: Value,
    IsTaxed: Value)

  /** `e => e.Sku` over the substitutes; reading `Sku` of a nullish entry throws. */
  function SkuList(subs: seq<Value>): (r: Completion<seq<Value>>)
    ensures r.Normal? <==> NoNullish(subs)
    ensures r.Normal? ==> |r.value| == |subs| && forall i :: 0 <= i < |subs| ==> r.value[i] == Get(subs[i], "Sku")
  {
    if NoNullish(subs) then Normal(seq(|subs|, i requires 0 <= i < |subs| => Get(subs[i], "Sku")))
    else Throw(TypeError)
  }

  /**
   * The Substitutes column: "" when the product has no substitutes, else
   * `item.Substitutes.map(e => e.Sku).join()`, which throws unless the value
   * is an array of non-nullish entries.
   */
  function SubstitutesColumn(subs: Value): (r: Completion<Value>)
    ensures !Truthy(subs) ==> r == Normal(Str(""))
    ensures Truthy(subs) && subs.Arr? && NoNullish(subs.elems) ==>
              r == Normal(Str(Join(Arr(SkuList(subs.elems).value))))
    ensures Truthy(subs) && !(subs.Arr? && NoNullish(subs.elems)) ==> r == Throw(TypeError)
  {
    if !Truthy(subs) then Normal(Str(""))
    else if subs.Arr? then
      match SkuList(subs.elems)
      case Normal(skus) => Normal(Str(Join(Arr(skus))))
      case Throw(e) => Throw(e)
    else Throw(TypeError)
  }

  /** The row exported for one product record, or the exception its Substitutes raise. */
  function ExportProduct(item: Value, listTypeProduct: Value, arrayToString: ArrayToStringFn,
                         searchIDToArray: SearchIDToArrayFn): (r: Completion<ProductRow>)
    ensures r.Normal? <==> SubstitutesColumn(Get(item, "Substitutes")).Normal?
    ensures r.Normal? ==>
      && r.value.Substitutes == SubstitutesColumn(Get(item, "Substitutes")).value
      && r.value.Warehouse == (if Truthy(Get(item, "Warehouses")) then arrayToString(Get(item, "Warehouses")) else Str(""))
      && r.value.Substance == (if Truthy(Get(item, "Substance")) then arrayToString(Get(item, "Substance")) else Str(""))
      && (!Truthy(Get(item, "TypesProductID")) ==> r.value.Type_Product == Str(""))
      && (Truthy(Get(item, "TypesProductID")) ==>
            r.value.Type_Product == Or(Get(searchIDToArray(listTypeProduct, Get(item, "TypesProductID")), "Name"), Str("")))
      && r.value.Grupo == Get(Get(item, "CategoryOne"), "Name")
      && r.value.CategoryOne == Get(Get(item, "CategoryTwo"), "Name")
      && r.value.CategoryTwo == Get(Get(item, "CategoryThree"), "Name")
      && r.value.Tax == Get(item, "iva")
      && r.value.IsTaxed == Get(item, "Taxed")
      && r.value.Status == Bool(Truthy(Get(item, "Status")))
      && r.value.PackInfo == Get(item, "Wrapper")
      && r.value.IDProduct == Get(item, "IDFloorProduct")
      && r.value.Maker == Get(Get(item, "Maker"), "Name")
      && r.value.Pack == Get(Get(item, "Pack"), "Name")
    ensures r.Normal? ==>
      && r.value.ID == Get(item, "ID")
      && r.value.HandlesBaq == Get(item, "HandlesBaq")
      && r.value.HandlesBog == Get(item, "HandlesBog")
      && r.value.Name == Get(item, "Name")
      && r.value.Sku == Get(item, "Sku")
      && r.value.Ean == Get(item, "Ean")
      && r.value.Trademark == Get(item, "Trademark")
      && r.value.Variation == Get(item, "Variation")
      && r.value.Quantity == Get(item, "Quantity")
      && r.value.MakerUnit == Get(item, "MakerUnit")
      && r.value.Weight == Get(item, "Weight")
      && r.value.Width == Get(item, "Width")
      && r.value.Height == Get(item, "Height")
      && r.value.WrapperUnit == Get(item, "WrapperUnit")
      && r.value.Depth == Get(item, "Depth")
      && r.value.Keywords == Get(item, "Keywords")
    ensures r.Throw? ==> r.exception == TypeError
  {
    var substance := if Truthy(Get(item, "Substance")) then arrayToString(Get(item, "Substance")) else Str("");
    var warehouse := if Truthy(Get(item, "Warehouses")) then arrayToString(Get(item, "Warehouses")) else Str("");
    var typesProduct :=
      if Truthy(Get(item, "TypesProductID"))
      then Or(Get(searchIDToArray(listTypeProduct, Get(item, "TypesProductID")), "Name"), Str(""))
      else Str("");
    match SubstitutesColumn(Get(item, "Substitutes"))
    case Throw(e) => Throw(e)
    case Normal(substitutes) =>
      Normal(ProductRow(
        ID := Get(item, "ID"),
        HandlesBaq := Get(item, "HandlesBaq"),
        HandlesBog := Get(item, "HandlesBog"),
        Name := Get(item, "Name"),
        Sku := Get(item, "Sku"),
        Ean := Get(item, "Ean"),
        Maker := Get(Get(item, "Maker"), "Name"),
        Trademark := Get(item, "Trademark"),
        Type_Product := typesProduct,
        Variation := Get(item, "Variation"),
        Grupo := Get(Get(item, "CategoryOne"), "Name"),
        CategoryOne := Get(Get(item, "CategoryTwo"), "Name"),
        CategoryTwo := Get(Get(item, "CategoryThree"), "Name"),
        Pack := Get(Get(item, "Pack"), "Name"),
        Quantity := Get(item, "Quantity"),
        MakerUnit := Get(item, "MakerUnit"),
        Weight := Get(item, "Weight"),
        Width := Get(item, "Width"),
        PackInfo := Get(item, "Wrapper"),
        Height := Get(item, "Height"),
        WrapperUnit := Get(item, "WrapperUnit"),
        Depth := Get(item, "Depth"),
        Warehouse := warehouse,
        IDProduct := Get(item, "IDFloorProduct"),
        Substance := substance,
        Substitutes := substitutes,
        Status := Bool(Truthy(Get(item, "Status"))),
        Keywords := Get(item, "Keywords"),
        Tax := Get(item, "iva"),
        IsTaxed := Get(item, "Taxed")))
  }

  /** The rows for a list of products, in order; the first record that throws ends the export. */
  function ExportAll(items: seq<Value>, listTypeProduct: Value, arrayToString: ArrayToStringFn,
                     searchIDToArray: SearchIDToArrayFn): (r: Completion<seq<ProductRow>>)
    ensures r.Normal? <==> forall i :: 0 <= i < |items| ==> ExportProduct(items[i], listTypeProduct, arrayToString, searchIDToArray).Normal?
    ensures r.Normal? ==> |r.value| == |items|
    ensures r.Normal? ==> forall i :: 0 <= i < |items| ==>
              Normal(r.value[i]) == ExportProduct(items[i], listTypeProduct, arrayToString, searchIDToArray)
    ensures r.Throw? ==> r.exception == TypeError
  {
    if items == [] then Normal([])
    else
      match ExportProduct(items[0], listTypeProduct, arrayToString, searchIDToArray)
      case Throw(e) => Throw(e)
      case Normal(row) =>
        match ExportAll(items[1..], listTypeProduct, arrayToString, searchIDToArray)
        case Throw(e) => Throw(e)
        case Normal(rows) =>
          assert forall i :: 1 <= i < |items| ==> items[i] == items[1..][i - 1];
          Normal([row] + rows)
  }

  /** `productExport(data, listTypeProduct)`: `undefined` for nullish data, one row per product for an array. */
  function ProductExport(data: Value, listTypeProduct: Value, arrayToString: ArrayToStringFn,
                         searchIDToArray: SearchIDToArrayFn): (r: Completion<Value>)
    ensures IsNullish(data) ==> r == Normal(Undefined)
    ensures !IsNullish(data) && !data.Arr? ==> r == Throw(TypeError)
    ensures data.Arr? ==> (r.Normal? <==> ExportAll(data.elems, listTypeProduct, arrayToString, searchIDToArray).Normal?)
    ensures data.Arr? && r.Normal? ==> r.value.Arr? && |r.value.elems| == |data.elems|
    ensures data.Arr? && r.Normal? ==> forall i :: 0 <= i < |data.elems| ==>
              r.value.elems[i] == RowObject(ExportAll(data.elems, listTypeProduct, arrayToString, searchIDToArray).value[i])
  {
    match data
    case Undefined => Normal(Undefined)
    case Null => Normal(Undefined)
    case Arr(items) =>
      (match ExportAll(items, listTypeProduct, arrayToString, searchIDToArray)
       case Normal(rows) => Normal(Arr(seq(|rows|, i requires 0 <= i < |rows| => RowObject(rows[i]))))
       case Throw(e) => Throw(e))
    case _ => Throw(TypeError)
  }

  // The 30 columns are written in four groups, by the length of their names;
  // names of different lengths differ, so the groups never share a column.

  /** The columns whose names have up to five letters. */
  const ShortColumns: set<string> := {"ID", "Sku", "Ean", "Tax", "Name", "Pack", "Maker", "Grupo", "Width", "Depth"}

  function ShortPart(row: ProductRow): (r: Props)
    ensures r.Keys == ShortColumns
    ensures forall k :: k in r ==> 2 <= |k| <= 5
    ensures r["ID"] == row.ID && r["Sku"] == row.Sku && r["Ean"] == row.Ean
    ensures r["Tax"] == row.Tax && r["Name"] == row.Name && r["Pack"] == row.Pack
    ensures r["Maker"] == row.Maker && r["Grupo"] == row.Grupo && r["Width"] == row.Width
    ensures r["Depth"] == row.Depth
  {
    map[
      "ID" := row.ID,
      "Sku" := row.Sku,
      "Ean" := row.Ean,
      "Tax" := row.Tax,
      "Name" := row.Name,
      "Pack" := row.Pack,
      "Maker" := row.Maker,
      "Grupo" := row.Grupo,
      "Width" := row.Width,
      "Depth" := row.Depth
    ]
  }

  /** The columns whose names have six to eight letters. */
  const MediumColumns: set<string> := {"Weight", "Height", "Status", "IsTaxed", "Quantity", "PackInfo", "Keywords"}

  function MediumPart(row: ProductRow): (r: Props)
    ensures r.Keys == MediumColumns
    ensures forall k :: k in r ==> 6 <= |k| <= 8
    ensures r["Weight"] == row.Weight && r["Height"] == row.Height && r["Status"] == row.Status
    ensures r["IsTaxed"] == row.IsTaxed && r["Quantity"] == row.Quantity && r["PackInfo"] == row.PackInfo
    ensures r["Keywords"] == row.Keywords
  {
    map[
      "Weight" := row.Weight,
      "Height" := row.Height,
      "Status" := row.Status,
      "IsTaxed" := row.IsTaxed,
      "Quantity" := row.Quantity,
      "PackInfo" := row.PackInfo,
      "Keywords" := row.Keywords
    ]
  }

  /** The columns whose names have nine letters. */
  const NineColumns: set<string> := {"Trademark", "Variation", "MakerUnit", "Warehouse", "IDProduct", "Substance"}

  function NinePart(row: ProductRow): (r: Props)
    ensures r.Keys == NineColumns
    ensures forall k :: k in r ==> |k| == 9
    ensures r["Trademark"] == row.Trademark && r["Variation"] == row.Variation && r["MakerUnit"] == row.MakerUnit
    ensures r["Warehouse"] == row.Warehouse && r["IDProduct"] == row.IDProduct && r["Substance"] == row.Substance
  {
    map[
      "Trademark" := row.Trademark,
      "Variation" := row.Variation,
      "MakerUnit" := row.MakerUnit,
      "Warehouse" := row.Warehouse,
      "IDProduct" := row.IDProduct,
      "Substance" := row.Substance
    ]
  }

  /** The columns whose names have ten letters or more. */
  const LongColumns: set<string> := {"HandlesBaq", "HandlesBog", "CategoryOne", "CategoryTwo", "WrapperUnit", "Substitutes", "Type_Product"}

  function LongPart(row: ProductRow): (r: Props)
    ensures r.Keys == LongColumns
    ensures forall k :: k in r ==> 10 <= |k| <= 12
    ensures r["HandlesBaq"] == row.HandlesBaq && r["HandlesBog"] == row.HandlesBog && r["CategoryOne"] == row.CategoryOne
    ensures r["CategoryTwo"] == row.CategoryTwo && r["WrapperUnit"] == row.WrapperUnit && r["Substitutes"] == row.Substitutes
    ensures r["Type_Product"] == row.Type_Product
  {
    map[
      "HandlesBaq" := row.HandlesBaq,
      "HandlesBog" := row.HandlesBog,
      "CategoryOne" := row.CategoryOne,
      "CategoryTwo" := row.CategoryTwo,
      "WrapperUnit" := row.WrapperUnit,
      "Substitutes" := row.Substitutes,
      "Type_Product" := row.Type_Product
    ]
  }

  /** The columns of an exported product. */
  const ProductColumns: set<string> := ShortColumns + MediumColumns + NineColumns + LongColumns

  /** A row as the object the export writes: each group of columns as that group's part writes it. */
  function RowObject(row: ProductRow): (r: Value)
    ensures r.Obj? && r.props.Keys == ProductColumns
    ensures forall k :: k in ShortColumns ==> r.props[k] == ShortPart(row)[k]
    ensures forall k :: k in MediumColumns ==> r.props[k] == MediumPart(row)[k]
    ensures forall k :: k in NineColumns ==> r.props[k] == NinePart(row)[k]
    ensures forall k :: k in LongColumns ==> r.props[k] == LongPart(row)[k]
  {
    Obj(ShortPart(row) + MediumPart(row) + NinePart(row) + LongPart(row))
  }

  /** Every column of the written object holds the row field of the same name. */
  lemma RowObjectColumns(row: ProductRow)
    ensures RowObject(row).props["ID"] == row.ID && RowObject(row).props["HandlesBaq"] == row.HandlesBaq
    ensures RowObject(row).props["HandlesBog"] == row.HandlesBog && RowObject(row).props["Name"] == row.Name
    ensures RowObject(row).props["Sku"] == row.Sku && RowObject(row).props["Ean"] == row.Ean
    ensures RowObject(row).props["Maker"] == row.Maker && RowObject(row).props["Trademark"] == row.Trademark
    ensures RowObject(row).props["Type_Product"] == row.Type_Product && RowObject(row).props["Variation"] == row.Variation
    ensures RowObject(row).props["Grupo"] == row.Grupo && RowObject(row).props["CategoryOne"] == row.CategoryOne
    ensures RowObject(row).props["CategoryTwo"] == row.CategoryTwo && RowObject(row).props["Pack"] == row.Pack
    ensures RowObject(row).props["Quantity"] == row.Quantity && RowObject(row).props["MakerUnit"] == row.MakerUnit
    ensures RowObject(row).props["Weight"] == row.Weight && RowObject(row).props["Width"] == row.Width
    ensures RowObject(row).props["PackInfo"] == row.PackInfo && RowObject(row).props["Height"] == row.Height
    ensures RowObject(row).props["WrapperUnit"] == row.WrapperUnit && RowObject(row).props["Depth"] == row.Depth
    ensures RowObject(row).props["Warehouse"] == row.Warehouse && RowObject(row).props["IDProduct"] == row.IDProduct
    ensures RowObject(row).props["Substance"] == row.Substance && RowObject(row).props["Substitutes"] == row.Substitutes
    ensures RowObject(row).props["Status"] == row.Status && RowObject(row).props["Keywords"] == row.Keywords
    ensures RowObject(row).props["Tax"] == row.Tax && RowObject(row).props["IsTaxed"] == row.IsTaxed
  {
  }

  // ---------------------------------------------------------------------------
  // Reading the Substitutes column back

  /** The pieces of s between commas, as `s.split(",")` returns them. */
  function SplitOnComma(s: string): (r: seq<string>)
    ensures |r| >= 1
  {
    if s == [] then [""]
    else
      var rest := SplitOnComma(s[1..]);
      if s[0] == ',' then [""] + rest
      else [[s[0]] + rest[0]] + rest[1..]
  }

  /** `parts.join(",")` for texts. */
  function JoinWithCommas(parts: seq<string>): string {
    if |parts| == 0 then ""
    else if |parts| == 1 then parts[0]
    else parts[0] + "," + JoinWithCommas(parts[1..])
  }

  /** The SKU values of a list of texts. */
  function Texts(parts: seq<string>): (r: seq<Value>)
    ensures |r| == |parts| && forall i :: 0 <= i < |parts| ==> r[i] == Str(parts[i])
  {
    seq(|parts|, i requires 0 <= i < |parts| => Str(parts[i]))
  }

  /** Joining texts as an array joins them with commas. */
  lemma {:induction false} JoinTexts(parts: seq<string>, i: nat)
    requires i <= |parts|
    ensures JoinFrom(Arr(Texts(parts)), i, ",") == JoinWithCommas(parts[i..])
    decreases |parts| - i
  {
    if i < |parts| {
      JoinTexts(parts, i + 1);
      assert parts[i..][1..] == parts[i + 1..];
    }
  }

  lemma {:induction false} SplitWithoutComma(p: string)
    requires ',' !in p
    ensures SplitOnComma(p) == [p]
  {
    if p != [] {
      SplitWithoutComma(p[1..]);
      assert [p[0]] + p[1..] == p;
    }
  }

  lemma {:induction false} SplitAfterPiece(p: string, rest: string)
    requires ',' !in p
    ensures SplitOnComma(p + "," + rest) == [p] + SplitOnComma(rest)
  {
    if p == [] {
      assert p + "," + rest == [','] + rest;
      assert (p + "," + rest)[1..] == rest;
    } else {
      SplitAfterPiece(p[1..], rest);
      var s := p + "," + rest;
      assert s[0] == p[0] && s[1..] == p[1..] + "," + rest;
      assert [p[0]] + p[1..] == p;
    }
  }

  /** Comma-free SKUs can be recovered from the joined text by splitting it on commas. */
  lemma {:induction false} SplitJoinRoundTrip(parts: seq<string>)
    requires |parts| >= 1 && forall i :: 0 <= i < |parts| ==> ',' !in parts[i]
    ensures SplitOnComma(JoinWithCommas(parts)) == parts
  {
    if |parts| == 1 {
      SplitWithoutComma(parts[0]);
    } else {
      SplitJoinRoundTrip(parts[1..]);
      SplitAfterPiece(parts[0], JoinWithCommas(parts[1..]));
      assert [parts[0]] + parts[1..] == parts;
    }
  }

  /**
   * The Substitutes column of a product whose substitutes carry comma-free
   * SKU texts splits back into exactly those SKUs, in order.
   */
  lemma SubstitutesRoundTrip(subs: seq<Value>, skus: seq<string>)
    requires |subs| == |skus| >= 1 && NoNullish(subs)
    requires forall i :: 0 <= i < |subs| ==> Get(subs[i], "Sku") == Str(skus[i]) && ',' !in skus[i]
    ensures SubstitutesColumn(Arr(subs)).Normal?
    ensures SplitOnComma(SubstitutesColumn(Arr(subs)).value.s) == skus
  {
    assert SkuList(subs).value == Texts(skus);
    JoinTexts(skus, 0);
    assert skus[0..] == skus;
    SplitJoinRoundTrip(skus);
  }
}
