/**
 * The cart as a value: an ordered sequence of lines, and the operations the
 * point of sale applies to it (app.js:157-242). The class in module Pos applies
 * these to its `cart` field; the lemmas here are what every cart operation keeps.
 */
module CartLines {
  import opened Wrappers
  import opened Records

  /** A line holds at least one unit and its total is its quantity times its price. */
  predicate ValidLine(l: Line) {
    l.quantity >= 1 && l.total == l.quantity * l.price
  }

  /** No product appears on two lines. */
  predicate UniqueIds(lines: seq<Line>) {
    forall i, j :: 0 <= i < j < |lines| ==> lines[i].productId != lines[j].productId
  }

  /** The invariant of the cart between any two user actions. */
  predicate ValidCart(lines: seq<Line>) {
    (forall i :: 0 <= i < |lines| ==> ValidLine(lines[i])) && UniqueIds(lines)
  }

  // ---------------------------------------------------------------------------
  // Looking things up: `Array.prototype.find` by id

  /** `productsCache.find(p => p.id === id)`, as the position of the first match. */
  function ProductIndex(cache: seq<Product>, id: int): (r: Option<nat>)
    ensures r.Some? ==> r.value < |cache| && cache[r.value].id == id
                        && forall j :: 0 <= j < r.value ==> cache[j].id != id
    ensures r.None? <==> forall j :: 0 <= j < |cache| ==> cache[j].id != id
    decreases |cache|
  {
    if cache == [] then None
    else if cache[0].id == id then Some(0)
    else match ProductIndex(cache[1..], id)
      case None => None
      case Some(k) => Some(k + 1)
  }

  /** `cart.find(item => item.productId === id)`, as the position of the first match. */
  function LineIndex(lines: seq<Line>, id: int): (r: Option<nat>)
    ensures r.Some? ==> r.value < |lines| && lines[r.value].productId == id
                        && forall j :: 0 <= j < r.value ==> lines[j].productId != id
    ensures r.None? <==> forall j :: 0 <= j < |lines| ==> lines[j].productId != id
    decreases |lines|
  {
    if lines == [] then None
    else if lines[0].productId == id then Some(0)
    else match LineIndex(lines[1..], id)
      case None => None
      case Some(k) => Some(k + 1)
  }

  // ---------------------------------------------------------------------------
  // The three edits

  /** The line a product gets when it is first added: one unit at its current selling price. */
  function NewLine(p: Product): Line {
    Line(p.id, p.name, p.sellingPrice, 1, p.sellingPrice)
  }

  /** Line `k` with quantity `q` and its total recomputed from its own price snapshot. */
  function WithQuantity(lines: seq<Line>, k: nat, q: int): (r: seq<Line>)
    requires k < |lines|
  {
    lines[k := lines[k].(quantity := q, total := q * lines[k].price)]
  }

  /** The cart with line `k` deleted (`splice(k, 1)` for an index in range). */
  function Removed(lines: seq<Line>, k: nat): (r: seq<Line>)
    requires k < |lines|
    ensures |r| == |lines| - 1
    ensures forall i :: 0 <= i < k ==> r[i] == lines[i]
    ensures forall i :: k <= i < |r| ==> r[i] == lines[i + 1]
  {
    lines[..k] + lines[k + 1..]
  }

  /** `addToCart(id)` (app.js:157-179). */
  function Added(lines: seq<Line>, cache: seq<Product>, id: int): (r: seq<Line>)
    // a product the cache does not hold is ignored
    ensures ProductIndex(cache, id).None? ==> r == lines
    // a product already in the cart: that line gains one unit, nothing else changes
    ensures ProductIndex(cache, id).Some? && LineIndex(lines, id).Some? ==>
      var k := LineIndex(lines, id).value;
      && |r| == |lines|
      && r[k].productId == id && r[k].name == lines[k].name && r[k].price == lines[k].price
      && r[k].quantity == lines[k].quantity + 1 && r[k].total == r[k].quantity * r[k].price
      && forall i :: 0 <= i < |r| && i != k ==> r[i] == lines[i]
    // a new product: one line with one unit at its selling price is appended
    ensures ProductIndex(cache, id).Some? && LineIndex(lines, id).None? ==>
      var p := cache[ProductIndex(cache, id).value];
      && |r| == |lines| + 1 && r[..|lines|] == lines
      && r[|lines|] == Line(id, p.name, p.sellingPrice, 1, p.sellingPrice)
    ensures ValidCart(lines) ==> ValidCart(r)
  {
    match ProductIndex(cache, id)
    case None => lines
    case Some(pi) =>
      match LineIndex(lines, id)
      case Some(k) => WithQuantity(lines, k, lines[k].quantity + 1)
      case None => lines + [NewLine(cache[pi])]
  }

  /** `updateQuantity(k, change)` (app.js:186-195). */
  function Adjusted(lines: seq<Line>, k: nat, change: int): (r: seq<Line>)
    requires k < |lines|
    // dropping to zero or below deletes the line; the others keep their order
    ensures lines[k].quantity + change <= 0 ==> r == Removed(lines, k)
    // otherwise only line k changes, to the new quantity with its total recomputed
    ensures lines[k].quantity + change > 0 ==>
      && |r| == |lines|
      && r[k] == lines[k].(quantity := lines[k].quantity + change)
                         .(total := (lines[k].quantity + change) * lines[k].price)
      && forall i :: 0 <= i < |r| && i != k ==> r[i] == lines[i]
    ensures ValidCart(lines) ==> ValidCart(r)
  {
    var q := lines[k].quantity + change;
    if q <= 0 then Removed(lines, k) else WithQuantity(lines, k, q)
  }

  /** The start position `Array.prototype.splice(start, 1)` works from. */
  function SpliceStart(len: nat, start: int): (s: nat)
    ensures s <= len
  {
    if start < 0 then (if len + start < 0 then 0 else len + start)
    else if start > len then len else start
  }

  /** `removeFromCart(index)` (app.js:181-184): `cart.splice(index, 1)`. */
  function Spliced(lines: seq<Line>, index: int): (r: seq<Line>)
    ensures 0 <= index < |lines| ==> r == Removed(lines, index)
    ensures index >= |lines| ==> r == lines
    ensures -|lines| <= index < 0 ==> r == Removed(lines, |lines| + index)
    ensures index < -|lines| ==> r == (if lines == [] then lines else Removed(lines, 0))
    ensures ValidCart(lines) ==> ValidCart(r)
  {
    var s := SpliceStart(|lines|, index);
    if s < |lines| then Removed(lines, s) else lines
  }

  // ---------------------------------------------------------------------------
  // Totals

  /** `cart.reduce((sum, item) => sum + item.total, 0)`. */
  function Subtotal(lines: seq<Line>): int
    decreases |lines|
  {
    if lines == [] then 0 else Subtotal(lines[..|lines| - 1]) + lines[|lines| - 1].total
  }

  /** The sum of price times quantity over the lines: what the subtotal is meant to be. */
  function Gross(lines: seq<Line>): int
    decreases |lines|
  {
    if lines == [] then 0
    else Gross(lines[..|lines| - 1]) + lines[|lines| - 1].price * lines[|lines| - 1].quantity
  }

  datatype Totals = Totals(subtotal: int, discount: int, total: int)

  /** `updateTotals()` (app.js:226-236); `discountEntry` is the parsed discount field. */
  function CartTotals(lines: seq<Line>, discountEntry: Option<int>): (t: Totals)
    ensures ValidCart(lines) ==> t.subtotal == Gross(lines)
    ensures t.discount == discountEntry.GetOr(0)
    ensures t.total + t.discount == t.subtotal
  {
    SubtotalIsGross(lines);
    var subtotal := Subtotal(lines);
    var discount := discountEntry.GetOr(0);
    Totals(subtotal, discount, subtotal - discount)
  }

  /** The total as displayed: clamped at zero. The stored total is never clamped. */
  function DisplayedTotal(t: Totals): (shown: int)
    ensures shown >= 0
    ensures shown >= t.total
    ensures shown == t.total || shown == 0
  {
    if t.total > 0 then t.total else 0
  }

  /** The quantity of product `x` a line contributes. */
  function Share(l: Line, x: int): int {
    if l.productId == x then l.quantity else 0
  }

  /** The number of units of product `x` in the cart, over all its lines. */
  function Quantity(lines: seq<Line>, x: int): int
    decreases |lines|
  {
    if lines == [] then 0 else Quantity(lines[..|lines| - 1], x) + Share(lines[|lines| - 1], x)
  }

  // ---------------------------------------------------------------------------
  // Lemmas

  /** For well-formed lines, summing line totals is summing price times quantity. */
  lemma {:induction false} SubtotalIsGross(lines: seq<Line>)
    ensures (forall i :: 0 <= i < |lines| ==> ValidLine(lines[i])) ==> Subtotal(lines) == Gross(lines)
    decreases |lines|
  {
    if lines != [] {
      var init := lines[..|lines| - 1];
      assert forall i :: 0 <= i < |init| ==> init[i] == lines[i];
      SubtotalIsGross(init);
    }
  }

  /** Replacing one line changes the subtotal by the difference of the two line totals. */
  lemma {:induction false} SubtotalUpdate(lines: seq<Line>, k: nat, l: Line)
    requires k < |lines|
    ensures Subtotal(lines[k := l]) == Subtotal(lines) - lines[k].total + l.total
    decreases |lines|
  {
    var n := |lines|;
    if k < n - 1 {
      assert lines[k := l][..n - 1] == lines[..n - 1][k := l];
      SubtotalUpdate(lines[..n - 1], k, l);
    } else {
      assert lines[k := l][..n - 1] == lines[..n - 1];
    }
  }

  /** Deleting a line lowers the subtotal by that line's total. */
  lemma {:induction false} SubtotalRemoved(lines: seq<Line>, k: nat)
    requires k < |lines|
    ensures Subtotal(Removed(lines, k)) == Subtotal(lines) - lines[k].total
    decreases |lines|
  {
    var n := |lines|;
    var r := Removed(lines, k);
    if k == n - 1 {
      assert r == lines[..n - 1];
    } else {
      assert r[..|r| - 1] == Removed(lines[..n - 1], k);
      SubtotalRemoved(lines[..n - 1], k);
    }
  }

  /** Replacing one line changes each product's quantity by what the two lines hold of it. */
  lemma {:induction false} QuantityUpdate(lines: seq<Line>, k: nat, l: Line, x: int)
    requires k < |lines|
    ensures Quantity(lines[k := l], x) == Quantity(lines, x) - Share(lines[k], x) + Share(l, x)
    decreases |lines|
  {
    var n := |lines|;
    if k < n - 1 {
      assert lines[k := l][..n - 1] == lines[..n - 1][k := l];
      QuantityUpdate(lines[..n - 1], k, l, x);
    } else {
      assert lines[k := l][..n - 1] == lines[..n - 1];
    }
  }

  /** Deleting a line removes exactly what it held of each product. */
  lemma {:induction false} QuantityRemoved(lines: seq<Line>, k: nat, x: int)
    requires k < |lines|
    ensures Quantity(Removed(lines, k), x) == Quantity(lines, x) - Share(lines[k], x)
    decreases |lines|
  {
    var n := |lines|;
    var r := Removed(lines, k);
    if k == n - 1 {
      assert r == lines[..n - 1];
    } else {
      assert r[..|r| - 1] == Removed(lines[..n - 1], k);
      QuantityRemoved(lines[..n - 1], k, x);
    }
  }

  /** A product on no line has quantity zero. */
  lemma {:induction false} QuantityAbsent(lines: seq<Line>, x: int)
    requires forall i :: 0 <= i < |lines| ==> lines[i].productId != x
    ensures Quantity(lines, x) == 0
    decreases |lines|
  {
    if lines != [] {
      QuantityAbsent(lines[..|lines| - 1], x);
    }
  }

  /** With unique ids, a product's quantity is the quantity on its one line. */
  lemma {:induction false} QuantityOfLine(lines: seq<Line>, k: nat)
    requires UniqueIds(lines) && k < |lines|
    ensures Quantity(lines, lines[k].productId) == lines[k].quantity
    decreases |lines|
  {
    var n := |lines|;
    var init := lines[..n - 1];
    if k == n - 1 {
      QuantityAbsent(init, lines[k].productId);
    } else {
      QuantityOfLine(init, k);
    }
  }

  /** Adding a known product raises its quantity by one and leaves every other product's alone. */
  lemma AddedQuantity(lines: seq<Line>, cache: seq<Product>, id: int, x: int)
    ensures Quantity(Added(lines, cache, id), x) ==
            Quantity(lines, x) + (if x == id && ProductIndex(cache, id).Some? then 1 else 0)
  {
    var r := Added(lines, cache, id);
    match ProductIndex(cache, id)
    case None =>
    case Some(pi) =>
      match LineIndex(lines, id)
      case Some(k) =>
        var q := lines[k].quantity;
        var l := lines[k].(quantity := q + 1, total := (q + 1) * lines[k].price);
        assert r == lines[k := l];
        QuantityUpdate(lines, k, l, x);
      case None =>
        var extended := lines + [NewLine(cache[pi])];
        assert r == extended;
        assert extended[..|extended| - 1] == lines;
  }

  /** One more unit at price `p` costs `p` more: the step `AddedSubtotal` takes for a bumped line. */
  lemma MulSucc(q: int, p: int)
    ensures (q + 1) * p == q * p + p
  {
  }

  /** Adding a known product raises the subtotal by the price of one more unit. */
  lemma AddedSubtotal(lines: seq<Line>, cache: seq<Product>, id: int)
    requires ValidCart(lines) && ProductIndex(cache, id).Some?
    ensures Subtotal(Added(lines, cache, id)) == Subtotal(lines) +
            (match LineIndex(lines, id)
             case Some(k) => lines[k].price
             case None => cache[ProductIndex(cache, id).value].sellingPrice)
  {
    var r := Added(lines, cache, id);
    match LineIndex(lines, id)
    case Some(k) =>
      var q := lines[k].quantity;
      var l := lines[k].(quantity := q + 1, total := (q + 1) * lines[k].price);
      assert r == lines[k := l];
      assert lines[k].total == q * lines[k].price;
      MulSucc(q, lines[k].price);
      SubtotalUpdate(lines, k, l);
    case None =>
      var p := cache[ProductIndex(cache, id).value];
      assert r == lines + [NewLine(p)];
      assert r[..|r| - 1] == lines;
  }
}
