/**
 * The daily report (`reports.generate`, app.js:563-614): the day's sales, their
 * revenue, and an estimated cost at the products' current cost prices.
 */
module Reports {
  import opened Records
  import opened CartLines

  /** `db.sales.where('date').between(start, end)`: the lower bound is included, the upper is not. */
  function DaySales(sales: seq<Sale>, start: int, end: int): (r: seq<Sale>)
    ensures forall s :: s in r <==> s in sales && start <= s.date < end
    ensures forall s :: multiset(r)[s] == if start <= s.date < end then multiset(sales)[s] else 0
    ensures |r| <= |sales|
    decreases |sales|
  {
    if sales == [] then []
    else
      var init, last := sales[..|sales| - 1], sales[|sales| - 1];
      assert sales == init + [last];
      DaySales(init, start, end) + (if start <= last.date < end then [last] else [])
  }

  /** `sales.reduce((sum, s) => sum + s.totalAmount, 0)`. */
  function Revenue(sales: seq<Sale>): int
    decreases |sales|
  {
    if sales == [] then 0 else Revenue(sales[..|sales| - 1]) + sales[|sales| - 1].totalAmount
  }

  /** The cost of one sale's items; an item whose product is gone costs nothing. */
  function ItemsCost(items: seq<Line>, products: map<int, Product>): int
    decreases |items|
  {
    if items == [] then 0
    else
      var last := items[|items| - 1];
      ItemsCost(items[..|items| - 1], products)
        + (if last.productId in products then products[last.productId].costPrice * last.quantity else 0)
  }

  /** The estimated cost of a list of sales. */
  function Cost(sales: seq<Sale>, products: map<int, Product>): int
    decreases |sales|
  {
    if sales == [] then 0
    else Cost(sales[..|sales| - 1], products) + ItemsCost(sales[|sales| - 1].items, products)
  }

  /** The units of product `id` the sales hold. */
  function Sold(sales: seq<Sale>, id: int): int
    decreases |sales|
  {
    if sales == [] then 0 else Sold(sales[..|sales| - 1], id) + Quantity(sales[|sales| - 1].items, id)
  }

  /** The nested cost loop of app.js:590-599. */
  method TotalCost(sales: seq<Sale>, products: map<int, Product>) returns (totalCost: int)
    ensures totalCost == Cost(sales, products)
  {
    totalCost := 0;
    for i := 0 to |sales|
      invariant totalCost == Cost(sales[..i], products)
    {
      var items := sales[i].items;
      ghost var before := totalCost;
      for j := 0 to |items|
        invariant totalCost == before + ItemsCost(items[..j], products)
      {
        var item := items[j];
        if item.productId in products {
          totalCost := totalCost + products[item.productId].costPrice * item.quantity;
        }
        assert items[..j + 1][..j] == items[..j];
      }
      assert items[..|items|] == items;
      assert sales[..i + 1][..i] == sales[..i];
    }
    assert sales[..|sales|] == sales;
  }

  datatype Report = Report(count: nat, revenue: int, profit: int)

  /** The figures `generate` displays for the day [start, end). */
  method Generate(sales: seq<Sale>, products: map<int, Product>, start: int, end: int)
    returns (report: Report)
    ensures var day := DaySales(sales, start, end);
      report == Report(|day|, Revenue(day), Revenue(day) - Cost(day, products))
  {
    var day := DaySales(sales, start, end);
    var revenue := Revenue(day);
    var totalCost := TotalCost(day, products);
    report := Report(|day|, revenue, revenue - totalCost);
  }

  /** A sale recorded at `sale.date` adds its total to that day's revenue and to no other day's. */
  lemma RevenueAfterSale(sales: seq<Sale>, sale: Sale, start: int, end: int)
    ensures Revenue(DaySales(sales + [sale], start, end)) ==
            Revenue(DaySales(sales, start, end)) + (if start <= sale.date < end then sale.totalAmount else 0)
  {
    var all := sales + [sale];
    assert all[..|all| - 1] == sales && all[|all| - 1] == sale;
    var day := DaySales(sales, start, end);
    if start <= sale.date < end {
      assert DaySales(all, start, end) == day + [sale];
      var after := day + [sale];
      assert after[..|after| - 1] == day;
    } else {
      assert DaySales(all, start, end) == day + [];
      assert day + [] == day;
    }
  }

  /** A cost price times a sum of units is the sum of the two costs: the step both deletion lemmas take. */
  lemma Distribute(c: int, x: int, y: int)
    ensures c * (x + y) == c * x + c * y
  {
  }

  /** Deleting a product removes exactly its current cost price times the units sold from the cost. */
  lemma {:induction false} ItemsCostAfterDelete(items: seq<Line>, products: map<int, Product>, id: int)
    requires id in products
    ensures ItemsCost(items, products - {id}) ==
            ItemsCost(items, products) - products[id].costPrice * Quantity(items, id)
    decreases |items|
  {
    if items != [] {
      var init := items[..|items| - 1];
      var last := items[|items| - 1];
      ItemsCostAfterDelete(init, products, id);
      Distribute(products[id].costPrice, Quantity(init, id), Share(last, id));
    }
  }

  lemma {:induction false} CostAfterDelete(sales: seq<Sale>, products: map<int, Product>, id: int)
    requires id in products
    ensures Cost(sales, products - {id}) == Cost(sales, products) - products[id].costPrice * Sold(sales, id)
    decreases |sales|
  {
    if sales != [] {
      var init := sales[..|sales| - 1];
      var last := sales[|sales| - 1];
      var c := products[id].costPrice;
      CostAfterDelete(init, products, id);
      ItemsCostAfterDelete(last.items, products, id);
      Distribute(c, Sold(init, id), Quantity(last.items, id));
      assert Sold(sales, id) == Sold(init, id) + Quantity(last.items, id);
      assert Cost(sales, products) == Cost(init, products) + ItemsCost(last.items, products);
      assert Cost(sales, products - {id}) == Cost(init, products - {id}) + ItemsCost(last.items, products - {id});
    }
  }
}
