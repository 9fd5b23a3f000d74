/**
 * Clients of the contracts: what a caller can conclude from the specifications
 * alone, for a two-product checkout with a discount and for a job edit from
 * Pending to Completed.
 */
module Scenario {
  import opened Wrappers
  import opened Records
  import opened CartLines
  import opened Pos
  import opened Jobs

  /** Two units of A at 100, one of B at 50, discount 20: subtotal 250, total 230. */
  method CheckoutTwoProducts() {
    var a := Product(1, "A4 Paper", "", "Stationery", 60, 100, 10, 0);
    var b := Product(2, "Blue Pen", "", "Stationery", 20, 50, 5, 0);
    var store := new Store(map[1 := a, 2 := b], []);
    var pos := new PointOfSale();
    var shown := pos.RenderProducts([a, b], "all", "");
    assert shown == [a, b];

    assert ProductIndex([a, b], 1) == Some(0);
    assert ProductIndex([a, b], 2) == Some(1);
    pos.AddToCart(1);
    assert pos.cart == [Line(1, "A4 Paper", 100, 1, 100)];
    pos.AddToCart(1);
    assert pos.cart == [Line(1, "A4 Paper", 100, 2, 200)];
    assert LineIndex(pos.cart, 2) == None;
    pos.AddToCart(2);
    assert pos.cart == [Line(1, "A4 Paper", 100, 2, 200), Line(2, "Blue Pen", 50, 1, 50)];
    pos.discountEntry := Some(20);
    assert Subtotal(pos.cart) == 250 by {
      var c := pos.cart;
      assert c[..1] == [Line(1, "A4 Paper", 100, 2, 200)];
      assert c[..1][..0] == [];
      assert Subtotal(c[..1][..0]) == 0;
      assert Subtotal(c[..1]) == 200;
      assert Subtotal(c) == Subtotal(c[..1]) + 50;
    }
    assert CartTotals(pos.cart, pos.discountEntry) == Totals(250, 20, 230);

    var lines := pos.cart;
    var outcome := pos.Checkout(store, 1000);
    assert outcome.Committed? && outcome.sale.totalAmount == 230;
    CheckoutStock(map[1 := a, 2 := b], lines);
    assert lines[0].productId == 1 && lines[1].productId == 2;
    assert store.products[1].stockQuantity == 8;
    assert store.products[2].stockQuantity == 4;
    assert pos.cart == [] && |store.sales| == 1;

    var again := pos.Checkout(store, 2000);
    assert again == CartEmpty && |store.sales| == 1;
  }

  /** A job of 5000 with 1000 paid up front has a balance of 4000, and any status may follow any other. */
  method EditJobStatus() {
    var job := Job(7, "Nimal", "0771234567", "Wedding cards", 5000, Some(1000), "Pending", "", 0);
    assert CardBalance(job) == 4000;
    var form := EditForm(job).(status := "Completed");
    assert FormBalance(form) == 4000;
    var saved := SavedRecord(job.id, form, 10);
    assert Classify(saved.status) == Completed && CardBalance(saved) == 4000;
  }
}
