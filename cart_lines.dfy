/** The line bookkeeping of a cart: finding the line of a product
    (`cart.items.find`), merging an addition into it or appending a new line,
    dropping a product's lines (`cart.items.filter`), and the derived totals. */
module CartLines {
  import opened Domain
  import Seqs

  /** At most one line per product. */
  ghost predicate LinesUnique(items: seq<CartLine>)
  {
    forall i, j :: 0 <= i < j < |items| ==> items[i].product != items[j].product
  }

  /** `items.find(item => item.product === productId)`, as an index: the first line of the product. */
  function FindLine(items: seq<CartLine>, productId: ProductId): (r: Option<nat>)
    ensures r.Some? ==> r.value < |items| && items[r.value].product == productId
    ensures r.Some? ==> forall j :: 0 <= j < r.value ==> items[j].product != productId
    ensures r.None? <==> forall j :: 0 <= j < |items| ==> items[j].product != productId
  {
    if |items| == 0 then None
    else if items[0].product == productId then Some(0)
    else match FindLine(items[1..], productId)
      case None => None
      case Some(k) => Some(k + 1)
  }

  /** How many units of the product the lines hold in all. */
  function Quantity(items: seq<CartLine>, productId: ProductId): int
  {
    if |items| == 0 then 0
    else
      var last := items[|items| - 1];
      Quantity(items[..|items| - 1], productId) + (if last.product == productId then last.quantity else 0)
  }

  /** Replacing one line changes the product's quantity by what that line held and now holds. */
  lemma {:induction false} QuantityAfterUpdate(items: seq<CartLine>, k: nat, line: CartLine, productId: ProductId)
    requires k < |items|
    ensures Quantity(items[k := line], productId)
         == Quantity(items, productId)
            - (if items[k].product == productId then items[k].quantity else 0)
            + (if line.product == productId then line.quantity else 0)
  {
    var n := |items|;
    var updated := items[k := line];
    if k < n - 1 {
      assert updated[..n - 1] == items[..n - 1][k := line];
      QuantityAfterUpdate(items[..n - 1], k, line, productId);
    } else {
      assert updated[..n - 1] == items[..n - 1];
    }
  }

  /** With one line per product, that line holds the product's whole quantity. */
  lemma {:induction false} QuantityOfUniqueLine(items: seq<CartLine>, k: nat)
    requires LinesUnique(items) && k < |items|
    ensures Quantity(items, items[k].product) == items[k].quantity
  {
    var n := |items|;
    var p := items[k].product;
    if k < n - 1 {
      QuantityOfUniqueLine(items[..n - 1], k);
    } else {
      QuantityOfAbsent(items[..n - 1], p);
    }
  }

  /** A product with no line has quantity 0. */
  lemma {:induction false} QuantityOfAbsent(items: seq<CartLine>, productId: ProductId)
    requires forall j :: 0 <= j < |items| ==> items[j].product != productId
    ensures Quantity(items, productId) == 0
  {
    if |items| > 0 {
      QuantityOfAbsent(items[..|items| - 1], productId);
    }
  }

  /** The addition of `addToCart`: an existing line of the product gets the
      extra quantity and the current price; otherwise one new line is appended. */
  function AddLine(items: seq<CartLine>, productId: ProductId, quantity: int, price: int): seq<CartLine>
  {
    match FindLine(items, productId)
    case Some(k) => items[k := CartLine(productId, items[k].quantity + quantity, price)]
    case None => items + [CartLine(productId, quantity, price)]
  }

  /** Adding raises the product's quantity by exactly `quantity` and leaves every other product's alone. */
  lemma {:induction false} AddLineQuantity(items: seq<CartLine>, productId: ProductId, quantity: int, price: int, other: ProductId)
    ensures Quantity(AddLine(items, productId, quantity, price), other)
         == Quantity(items, other) + (if other == productId then quantity else 0)
  {
    var found := FindLine(items, productId);
    if found.Some? {
      var k := found.value;
      var line := CartLine(productId, items[k].quantity + quantity, price);
      assert AddLine(items, productId, quantity, price) == items[k := line];
      QuantityAfterUpdate(items, k, line, other);
    } else {
      var line := CartLine(productId, quantity, price);
      assert AddLine(items, productId, quantity, price) == items + [line];
      QuantityAppend(items, line, other);
    }
  }

  /** Appending a line adds its quantity to its own product's count only. */
  lemma {:induction false} QuantityAppend(items: seq<CartLine>, line: CartLine, productId: ProductId)
    ensures Quantity(items + [line], productId)
         == Quantity(items, productId) + (if line.product == productId then line.quantity else 0)
  {
    assert (items + [line])[..|items|] == items;
  }

  /** A line is added only for a product the cart did not hold; one line per product is kept. */
  lemma {:induction false} AddLineKeepsUnique(items: seq<CartLine>, productId: ProductId, quantity: int, price: int)
    requires LinesUnique(items)
    ensures LinesUnique(AddLine(items, productId, quantity, price))
    ensures |AddLine(items, productId, quantity, price)| == |items| + (if FindLine(items, productId).None? then 1 else 0)
  {
  }

  /** In a cart with one line per product, after the addition the product's
      line holds the old quantity plus `quantity` at the current price, and
      every other line is as it was. */
  lemma {:induction false} AddLineMergesInto(items: seq<CartLine>, productId: ProductId, quantity: int, price: int)
    requires LinesUnique(items)
    ensures var r := AddLine(items, productId, quantity, price);
      && FindLine(r, productId).Some?
      && r[FindLine(r, productId).value] == CartLine(productId, Quantity(items, productId) + quantity, price)
      && forall j :: 0 <= j < |items| && items[j].product != productId ==> r[j] == items[j]
  {
    var r := AddLine(items, productId, quantity, price);
    AddLineKeepsUnique(items, productId, quantity, price);
    match FindLine(items, productId)
    case Some(k) =>
      QuantityOfUniqueLine(items, k);
      assert r[k].product == productId;
      assert FindLine(r, productId) == Some(k);
    case None =>
      QuantityOfAbsent(items, productId);
      var n := |items|;
      assert r[n].product == productId;
      assert FindLine(r, productId) == Some(n);
  }

  /** Adding `a` and then `b` units of a product the cart does not hold gives
      one new line of `a + b` units at the price of the second addition. */
  lemma {:induction false} AddTwiceMerges(items: seq<CartLine>, productId: ProductId, a: int, b: int, price1: int, price2: int)
    requires FindLine(items, productId).None?
    ensures AddLine(AddLine(items, productId, a, price1), productId, b, price2)
         == items + [CartLine(productId, a + b, price2)]
  {
    var once := items + [CartLine(productId, a, price1)];
    assert once[|items|].product == productId;
    forall j | 0 <= j < |items|
      ensures once[j].product != productId
    {
      assert once[j] == items[j];
    }
    assert FindLine(once, productId) == Some(|items|);
  }

  /** The stock check of `addToCart` looks only at the requested quantity, so
      a merged line can exceed the stock: 5 in stock, 4 in the cart, 3 more
      requested passes the check and leaves 7 in the cart. */
  lemma {:induction false} MergedLineMayExceedStock()
    ensures var items := [CartLine("p", 4, 100)];
      var stock, requested := 5, 3;
      && !(stock < requested)
      && Quantity(AddLine(items, "p", requested, 100), "p") > stock
  {
    var items := [CartLine("p", 4, 100)];
    AddLineQuantity(items, "p", 3, 100, "p");
    assert items[..0] == [];
  }

  /** `items.filter(item => item.product !== productId)`. */
  function RemoveLines(items: seq<CartLine>, productId: ProductId): seq<CartLine>
  {
    Seqs.Filter(items, (line: CartLine) => line.product != productId)
  }

  /** Removal drops every line of the product, keeps every other line, and keeps one line per product. */
  lemma {:induction false} RemoveLinesEffect(items: seq<CartLine>, productId: ProductId)
    ensures var r := RemoveLines(items, productId);
      && FindLine(r, productId).None?
      && (forall line :: line in items && line.product != productId ==> line in r)
      && (forall line :: line in r ==> line in items)
      && (LinesUnique(items) ==> LinesUnique(r))
  {
    Seqs.FilterMembers(items, (line: CartLine) => line.product != productId);
    if LinesUnique(items) {
      RemoveKeepsUnique(items, productId);
    }
  }

  lemma {:induction false} RemoveKeepsUnique(items: seq<CartLine>, productId: ProductId)
    requires LinesUnique(items)
    ensures LinesUnique(RemoveLines(items, productId))
  {
    if |items| > 0 {
      var init, last := items[..|items| - 1], items[|items| - 1];
      RemoveKeepsUnique(init, productId);
      var r0 := RemoveLines(init, productId);
      Seqs.FilterMembers(init, (line: CartLine) => line.product != productId);
      forall j | 0 <= j < |r0|
        ensures r0[j].product != last.product
      {
        assert r0[j] in init;
      }
    }
  }

  /** Removing a product twice is the same as removing it once. */
  lemma {:induction false} RemoveLinesIdempotent(items: seq<CartLine>, productId: ProductId)
    ensures RemoveLines(RemoveLines(items, productId), productId) == RemoveLines(items, productId)
  {
    var r := RemoveLines(items, productId);
    Seqs.FilterKeepsAll(r, (line: CartLine) => line.product != productId);
  }

  /** Removal leaves the quantity of every other product as it was and takes the product's to 0. */
  lemma {:induction false} RemoveLinesQuantity(items: seq<CartLine>, productId: ProductId, other: ProductId)
    ensures Quantity(RemoveLines(items, productId), other) == if other == productId then 0 else Quantity(items, other)
  {
    if |items| > 0 {
      var init := items[..|items| - 1];
      RemoveLinesQuantity(init, productId, other);
      var r0 := RemoveLines(init, productId);
      var last := items[|items| - 1];
      if last.product != productId {
        assert RemoveLines(items, productId) == r0 + [last];
        assert (r0 + [last])[..|r0|] == r0;
      } else {
        assert RemoveLines(items, productId) == r0;
      }
    }
  }

  /** The derived `totalItems`: the sum of the line quantities. */
  function TotalItems(items: seq<CartLine>): int
  {
    if |items| == 0 then 0 else TotalItems(items[..|items| - 1]) + items[|items| - 1].quantity
  }

  /** The derived `total`: the sum of price times quantity over the lines. */
  function Total(items: seq<CartLine>): int
  {
    if |items| == 0 then 0 else Total(items[..|items| - 1]) + items[|items| - 1].price * items[|items| - 1].quantity
  }

  /** Replacing one line changes the item count by the difference of the two lines. */
  lemma {:induction false} TotalItemsAfterUpdate(items: seq<CartLine>, k: nat, line: CartLine)
    requires k < |items|
    ensures TotalItems(items[k := line]) == TotalItems(items) - items[k].quantity + line.quantity
  {
    var n := |items|;
    if k < n - 1 {
      assert items[k := line][..n - 1] == items[..n - 1][k := line];
      TotalItemsAfterUpdate(items[..n - 1], k, line);
    } else {
      assert items[k := line][..n - 1] == items[..n - 1];
    }
  }

  /** Appending a line adds its quantity to the derived item count. */
  lemma {:induction false} TotalItemsAppend(items: seq<CartLine>, line: CartLine)
    ensures TotalItems(items + [line]) == TotalItems(items) + line.quantity
  {
    assert (items + [line])[..|items|] == items;
  }

  /** An addition of `quantity` units raises the derived item count by exactly `quantity`. */
  lemma {:induction false} TotalItemsAddLine(items: seq<CartLine>, productId: ProductId, quantity: int, price: int)
    ensures TotalItems(AddLine(items, productId, quantity, price)) == TotalItems(items) + quantity
  {
    var found := FindLine(items, productId);
    if found.Some? {
      var k := found.value;
      var line := CartLine(productId, items[k].quantity + quantity, price);
      assert AddLine(items, productId, quantity, price) == items[k := line];
      TotalItemsAfterUpdate(items, k, line);
    } else {
      assert AddLine(items, productId, quantity, price) == items + [CartLine(productId, quantity, price)];
      TotalItemsAppend(items, CartLine(productId, quantity, price));
    }
  }
}
