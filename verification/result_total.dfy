/**
 The result screen's line items and their total. The screen shows a fixed
 catalog of four products and adds up unit price × quantity with a reduce
 that starts from 0.
 */
module ResultTotal {

  /** One row of the result screen. Only `quantity` and `unitPrice` are arithmetic. */
  datatype ProductItem = ProductItem(name: string, quantity: int, unitPrice: int, icon: string)

  /** The amount one row adds to the total. */
  function LineAmount(item: ProductItem): int
  {
    item.unitPrice * item.quantity
  }

  /** Reference sum of the row amounts, first row first. */
  function Subtotal(items: seq<ProductItem>): int
    decreases |items|
  {
    if items == [] then 0 else LineAmount(items[0]) + Subtotal(items[1..])
  }

  /**
   The reduce callback applied from accumulator `acc` across `items`, left to
   right: every step adds the current row's amount to the running total.
   */
  function Reduce(acc: int, items: seq<ProductItem>): (r: int)
    ensures r == acc + Subtotal(items)
    decreases |items|
  {
    if items == [] then acc
    else Reduce(acc + LineAmount(items[0]), items[1..])
  }

  /** The screen's total: the reduce started from 0. */
  function CalculateTotal(items: seq<ProductItem>): (total: int)
    ensures total == Subtotal(items)
    ensures items == [] ==> total == 0
  {
    Reduce(0, items)
  }

  /** The sample catalog the screen displays, one of each product. */
  const Catalog: seq<ProductItem> := [
    ProductItem("商品A", 1, 1500, "●●●●●"),
    ProductItem("商品B", 1, 2000, "■■■■■"),
    ProductItem("商品C", 1, 1200, "△△△△△"),
    ProductItem("商品D", 1, 1800, "★★★★★")
  ]

  /** No row has a negative quantity or a negative unit price. */
  predicate NonNegativeRows(items: seq<ProductItem>)
  {
    forall i :: 0 <= i < |items| ==> items[i].quantity >= 0 && items[i].unitPrice >= 0
  }

  lemma {:induction false} SubtotalAppend(a: seq<ProductItem>, b: seq<ProductItem>)
    ensures Subtotal(a + b) == Subtotal(a) + Subtotal(b)
    decreases |a|
  {
    if a == [] {
      assert a + b == b;
    } else {
      assert (a + b)[1..] == a[1..] + b;
      SubtotalAppend(a[1..], b);
    }
  }

  /** The total of two lists put together is the sum of their totals. */
  lemma CalculateTotalAppend(a: seq<ProductItem>, b: seq<ProductItem>)
    ensures CalculateTotal(a + b) == CalculateTotal(a) + CalculateTotal(b)
  {
    SubtotalAppend(a, b);
  }

  lemma {:induction false} SubtotalNonNegative(items: seq<ProductItem>)
    requires NonNegativeRows(items)
    ensures Subtotal(items) >= 0
    decreases |items|
  {
    if items != [] {
      assert NonNegativeRows(items[1..]) by {
        forall i | 0 <= i < |items[1..]|
          ensures items[1..][i].quantity >= 0 && items[1..][i].unitPrice >= 0
        {
          assert items[1..][i] == items[i + 1];
        }
      }
      SubtotalNonNegative(items[1..]);
    }
  }

  /** Rows with no negative quantity or price never give a negative total. */
  lemma CalculateTotalNonNegative(items: seq<ProductItem>)
    requires NonNegativeRows(items)
    ensures CalculateTotal(items) >= 0
  {
    SubtotalNonNegative(items);
  }

  /** The displayed catalog has no negative row, so its total is not negative. */
  lemma CatalogNonNegative()
    ensures NonNegativeRows(Catalog)
    ensures CalculateTotal(Catalog) >= 0
  {
  }

  /** The displayed catalog totals 6500 yen. */
  lemma CatalogTotal()
    ensures CalculateTotal(Catalog) == 6500
  {
  }

  /** Names and icons are display-only: rows with the same quantities and prices give the same total. */
  lemma {:induction false} LabelsIrrelevant(a: seq<ProductItem>, b: seq<ProductItem>)
    requires |a| == |b|
    requires forall i :: 0 <= i < |a| ==> a[i].quantity == b[i].quantity && a[i].unitPrice == b[i].unitPrice
    ensures CalculateTotal(a) == CalculateTotal(b)
    decreases |a|
  {
    if a != [] {
      assert forall i :: 0 <= i < |a[1..]| ==> a[1..][i] == a[i + 1] && b[1..][i] == b[i + 1];
      LabelsIrrelevant(a[1..], b[1..]);
    }
  }
}
