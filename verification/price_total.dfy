/**
 The backend's price totaliser: given a price per product name and a quantity
 per product name, the bill is the sum of price × quantity over the ordered
 names. A name with no price is reported (a console warning, not modelled)
 and counted as 0.
 */
module PriceTotal {
  import SetSum

  /** Product name to unit price (yen). */
  type PriceMap = map<string, int>

  /** Product name to ordered quantity. */
  type QuantityMap = map<string, int>

  /** What one ordered name adds to the bill. */
  function Contribution(prices: PriceMap, name: string, quantity: int): (c: int)
    ensures name !in prices ==> c == 0
    ensures quantity == 0 ==> c == 0
    ensures name in prices && quantity == 1 ==> c == prices[name]
  {
    if name in prices then prices[name] * quantity else 0
  }

  /** The contribution of every name, 0 for names that were not ordered. */
  function ContributionOf(prices: PriceMap, items: QuantityMap): string -> int
  {
    name => if name in items then Contribution(prices, name, items[name]) else 0
  }

  /** The bill: every ordered name counted once, in no particular order. */
  ghost function Total(prices: PriceMap, items: QuantityMap): int
  {
    SetSum.Sum(ContributionOf(prices, items), items.Keys)
  }

  /** Price × quantity for names that are both ordered and priced. */
  function PricedAmount(prices: PriceMap, items: QuantityMap): string -> int
  {
    name => if name in items && name in prices then prices[name] * items[name] else 0
  }

  /**
   The totaliser itself. The loop visits the ordered names one at a time in
   whatever order the dictionary yields them, which is left open here: each
   step takes any name not yet visited.
   */
  method CalculateTotalPrice(prices: PriceMap, items: QuantityMap) returns (totalSum: int)
    ensures totalSum == Total(prices, items)
  {
    totalSum := 0;
    var unvisited := items.Keys;
    while unvisited != {}
      invariant unvisited <= items.Keys
      invariant totalSum == SetSum.Sum(ContributionOf(prices, items), items.Keys - unvisited)
      decreases unvisited
    {
      var itemName :| itemName in unvisited;
      var quantity := items[itemName];
      if itemName in prices {
        totalSum := totalSum + prices[itemName] * quantity;
      }
      var visited := items.Keys - (unvisited - {itemName});
      SetSum.SumRemove(ContributionOf(prices, items), visited, itemName);
      assert visited - {itemName} == items.Keys - unvisited;
      unvisited := unvisited - {itemName};
    }
    assert items.Keys - unvisited == items.Keys;
  }

  /** The running total of a loop that visits the names in `order`. */
  function TotalAlong(prices: PriceMap, items: QuantityMap, order: seq<string>): int
    decreases |order|
  {
    if order == [] then 0
    else ContributionOf(prices, items)(order[0]) + TotalAlong(prices, items, order[1..])
  }

  /** `order` lists exactly the names in `names`, none twice. */
  predicate Enumerates(order: seq<string>, names: set<string>)
  {
    && (forall i, j :: 0 <= i < j < |order| ==> order[i] != order[j])
    && (forall n :: n in order ==> n in names)
    && (forall n :: n in names ==> n in order)
  }

  lemma {:induction false} TotalAlongIsSum(prices: PriceMap, items: QuantityMap, order: seq<string>, names: set<string>)
    requires Enumerates(order, names)
    ensures TotalAlong(prices, items, order) == SetSum.Sum(ContributionOf(prices, items), names)
    decreases |order|
  {
    if order == [] {
      assert names == {};
    } else {
      var first := order[0];
      assert first in names;
      SetSum.SumRemove(ContributionOf(prices, items), names, first);
      assert Enumerates(order[1..], names - {first}) by {
        forall n
          ensures n in order[1..] ==> n in names - {first}
          ensures n in names - {first} ==> n in order[1..]
        {
          if n in order[1..] {
            var k :| 0 <= k < |order[1..]| && order[1..][k] == n;
            assert order[k + 1] == n;
          }
          if n in names - {first} {
            assert n in order;
            var k :| 0 <= k < |order| && order[k] == n;
            assert k != 0;
            assert order[1..][k - 1] == n;
          }
        }
      }
      TotalAlongIsSum(prices, items, order[1..], names - {first});
    }
  }

  /** The bill is the same for every order in which the names may be visited. */
  lemma OrderIndependent(prices: PriceMap, items: QuantityMap, order1: seq<string>, order2: seq<string>)
    requires Enumerates(order1, items.Keys)
    requires Enumerates(order2, items.Keys)
    ensures TotalAlong(prices, items, order1) == Total(prices, items)
    ensures TotalAlong(prices, items, order1) == TotalAlong(prices, items, order2)
  {
    TotalAlongIsSum(prices, items, order1, items.Keys);
    TotalAlongIsSum(prices, items, order2, items.Keys);
  }

  /** Nothing ordered, nothing to pay, whatever the prices. */
  lemma NoItemsTotal(prices: PriceMap)
    ensures Total(prices, map[]) == 0
  {
  }

  /**
   The bill is the sum of price × quantity over the names that are both
   ordered and priced.
   */
  lemma TotalIsPricedSum(prices: PriceMap, items: QuantityMap)
    ensures Total(prices, items) == SetSum.Sum(PricedAmount(prices, items), items.Keys * prices.Keys)
  {
    var c := ContributionOf(prices, items);
    var unpriced := items.Keys - prices.Keys;
    SetSum.SumDropZeros(c, items.Keys, unpriced);
    assert items.Keys - unpriced == items.Keys * prices.Keys;
    SetSum.SumCongruent(c, PricedAmount(prices, items), items.Keys * prices.Keys);
  }

  /** Each ordered name adds its contribution exactly once. */
  lemma RemoveItem(prices: PriceMap, items: QuantityMap, name: string)
    requires name in items
    ensures Total(prices, items) == Contribution(prices, name, items[name]) + Total(prices, items - {name})
  {
    var rest := items - {name};
    assert rest.Keys == items.Keys - {name};
    SetSum.SumRemove(ContributionOf(prices, items), items.Keys, name);
    SetSum.SumCongruent(ContributionOf(prices, items), ContributionOf(prices, rest), rest.Keys);
  }

  /** A name without a price adds nothing: dropping it from the order keeps the bill. */
  lemma UnpricedItemIgnored(prices: PriceMap, items: QuantityMap, name: string)
    requires name !in prices
    ensures Total(prices, items - {name}) == Total(prices, items)
  {
    if name in items {
      RemoveItem(prices, items, name);
    } else {
      assert items - {name} == items;
    }
  }

  /** A name ordered zero times adds nothing: dropping it keeps the bill. */
  lemma ZeroQuantityIgnored(prices: PriceMap, items: QuantityMap, name: string)
    requires name in items ==> items[name] == 0
    ensures Total(prices, items - {name}) == Total(prices, items)
  {
    if name in items {
      RemoveItem(prices, items, name);
    } else {
      assert items - {name} == items;
    }
  }

  /**
   Only the prices of ordered names are consulted: two price lists that agree
   on the ordered names give the same bill.
   */
  lemma OnlyOrderedPricesMatter(prices1: PriceMap, prices2: PriceMap, items: QuantityMap)
    requires forall n :: n in items ==> (n in prices1 <==> n in prices2)
    requires forall n :: n in items && n in prices1 && n in prices2 ==> prices1[n] == prices2[n]
    ensures Total(prices1, items) == Total(prices2, items)
  {
    SetSum.SumCongruent(ContributionOf(prices1, items), ContributionOf(prices2, items), items.Keys);
  }

  // The four cases of the module's own unit tests.

  lemma BasicCalculation()
    ensures Total(map["ANPAN" := 200, "PEN" := 100], map["ANPAN" := 2, "PEN" := 1]) == 500
  {
    var prices := map["ANPAN" := 200, "PEN" := 100];
    var items := map["ANPAN" := 2, "PEN" := 1];
    RemoveItem(prices, items, "ANPAN");
    var rest := items - {"ANPAN"};
    assert rest == map["PEN" := 1];
    RemoveItem(prices, rest, "PEN");
    assert rest - {"PEN"} == map[];
  }

  lemma EmptyItems()
    ensures Total(map["ANPAN" := 200, "PEN" := 100], map[]) == 0
  {
  }

  lemma MissingPrice()
    ensures Total(map["PEN" := 100], map["ANPAN" := 2, "PEN" := 1]) == 100
  {
    var prices := map["PEN" := 100];
    var items := map["ANPAN" := 2, "PEN" := 1];
    RemoveItem(prices, items, "ANPAN");
    var rest := items - {"ANPAN"};
    assert rest == map["PEN" := 1];
    RemoveItem(prices, rest, "PEN");
    assert rest - {"PEN"} == map[];
  }

  lemma ZeroQuantity()
    ensures Total(map["ANPAN" := 200, "PEN" := 100], map["ANPAN" := 2, "PEN" := 0]) == 400
  {
    var prices := map["ANPAN" := 200, "PEN" := 100];
    var items := map["ANPAN" := 2, "PEN" := 0];
    RemoveItem(prices, items, "ANPAN");
    var rest := items - {"ANPAN"};
    assert rest == map["PEN" := 0];
    RemoveItem(prices, rest, "PEN");
    assert rest - {"PEN"} == map[];
  }
}
