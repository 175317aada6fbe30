/** The shopping cart: an ordered sequence of line items and one flat discount.
    Every Java mutator becomes a function from the old cart to the new one. */
module Carts {
  import opened Products
  import opened Results

  /** Insertion order is significant: it is the display order and the order
      behind the 1-based item numbers the user types to remove an item. */
  datatype Cart = Cart(items: seq<Product>, discount: real)

  /** Reference definition of the bill before discount: the sum of
      price times quantity over all items. */
  function Sum(items: seq<Product>): real
  {
    if |items| == 0 then 0.0 else LineTotal(items[0]) + Sum(items[1..])
  }

  lemma {:induction false} SumAppend(a: seq<Product>, b: seq<Product>)
    ensures Sum(a + b) == Sum(a) + Sum(b)
  {
    if |a| == 0 {
      assert a + b == b;
    } else {
      assert (a + b)[1..] == a[1..] + b;
      SumAppend(a[1..], b);
    }
  }

  /** The total is the reference sum minus the discount, with no clamp at zero. */
  function Total(c: Cart): real
  {
    Sum(c.items) - c.discount
  }

  /** A freshly constructed cart. */
  function NewCart(): Cart
  {
    Cart([], 0.0)
  }

  lemma NewCartIsEmpty()
    ensures |NewCart().items| == 0
    ensures NewCart().discount == 0.0
    ensures Total(NewCart()) == 0.0
  {
  }

  /** Number of items in the cart. */
  function Size(c: Cart): (n: nat)
    ensures n == 0 <==> c.items == []
  {
    |c.items|
  }

  /** Appends a product at the end; nothing else changes. */
  function AddItem(c: Cart, p: Product): (r: Cart)
    ensures Size(r) == Size(c) + 1
    ensures r.items[Size(c)] == p
    ensures forall i :: 0 <= i < Size(c) ==> r.items[i] == c.items[i]
    ensures r.discount == c.discount
  {
    c.(items := c.items + [p])
  }

  /** Removes the item at a zero-based index, shifting later items down by one.
      An index outside `[0, size)` is the exception `ArrayList.remove` throws. */
  function RemoveItem(c: Cart, index: int): (r: Result<Cart>)
    ensures r.Ok? <==> 0 <= index < Size(c)
    ensures r.Err? ==> r.error == IndexOutOfBounds(index, Size(c))
    ensures r.Ok? ==> Size(r.value) == Size(c) - 1 && r.value.discount == c.discount
    ensures r.Ok? ==> forall j :: 0 <= j < index ==> r.value.items[j] == c.items[j]
    ensures r.Ok? ==> forall j :: index <= j < Size(r.value) ==> r.value.items[j] == c.items[j + 1]
    ensures r.Ok? ==> multiset(r.value.items) + multiset{c.items[index]} == multiset(c.items)
  {
    if 0 <= index < |c.items| then
      assert c.items == c.items[..index] + [c.items[index]] + c.items[index + 1..];
      Ok(c.(items := c.items[..index] + c.items[index + 1..]))
    else
      Err(IndexOutOfBounds(index, |c.items|))
  }

  /** Reads the item at a zero-based index; out of range is `ArrayList.get`'s exception. */
  function GetItem(c: Cart, index: int): (r: Result<Product>)
    ensures r.Ok? <==> 0 <= index < Size(c)
    ensures r.Ok? ==> r.value in c.items && r.value == c.items[index]
    ensures r.Err? ==> r.error == IndexOutOfBounds(index, Size(c))
  {
    if 0 <= index < |c.items| then Ok(c.items[index]) else Err(IndexOutOfBounds(index, |c.items|))
  }

  /** Replaces the discount; the items are untouched. */
  function SetDiscount(c: Cart, amount: real): (r: Cart)
    ensures r.items == c.items
    ensures r.discount == amount
  {
    c.(discount := amount)
  }

  /** `calculateTotal`: the Java loop accumulating price times quantity, then
      subtracting the discount. */
  method CalculateTotal(c: Cart) returns (total: real)
    ensures total == Sum(c.items) - c.discount
  {
    total := 0.0;
    var i := 0;
    while i < |c.items|
      invariant 0 <= i <= |c.items|
      invariant total == Sum(c.items[..i])
    {
      assert c.items[..i + 1] == c.items[..i] + [c.items[i]];
      SumAppend(c.items[..i], [c.items[i]]);
      total := total + LineTotal(c.items[i]);
      i := i + 1;
    }
    assert c.items[..i] == c.items;
    total := total - c.discount;
  }

  // ----- Properties relating the operations -----

  /** Adding an item raises the total by exactly its line total. */
  lemma TotalAfterAdd(c: Cart, p: Product)
    ensures Total(AddItem(c, p)) == Total(c) + LineTotal(p)
  {
    SumAppend(c.items, [p]);
    assert Sum([p]) == LineTotal(p) + Sum([]);
  }

  /** Removing a valid index lowers the total by exactly that item's line total. */
  lemma TotalAfterRemove(c: Cart, index: int)
    requires 0 <= index < Size(c)
    ensures RemoveItem(c, index).Ok?
    ensures Total(RemoveItem(c, index).value) == Total(c) - LineTotal(c.items[index])
  {
    var a, b := c.items[..index], c.items[index + 1..];
    assert c.items == a + ([c.items[index]] + b);
    SumAppend(a, [c.items[index]] + b);
    SumAppend([c.items[index]], b);
    SumAppend(a, b);
    assert Sum([c.items[index]]) == LineTotal(c.items[index]) + Sum([]);
    assert RemoveItem(c, index).value.items == a + b;
  }

  /** Removing the item just added gives back the cart before the add. */
  lemma RemoveUndoesAdd(c: Cart, p: Product)
    ensures RemoveItem(AddItem(c, p), Size(c)) == Ok(c)
  {
    var r := AddItem(c, p);
    assert r.items[..|c.items|] + r.items[|c.items| + 1..] == c.items;
  }

  /** Reading an index after an add: the new last index yields the added item,
      every earlier index yields what it yielded before. */
  lemma GetAfterAdd(c: Cart, p: Product, index: int)
    ensures GetItem(AddItem(c, p), index) ==
      (if index == Size(c) then Ok(p) else if 0 <= index < Size(c) then GetItem(c, index)
       else Err(IndexOutOfBounds(index, Size(c) + 1)))
  {
  }

  /** The discount is overwritten, not accumulated: the last call wins. */
  lemma DiscountLastWins(c: Cart, a: real, b: real)
    ensures SetDiscount(SetDiscount(c, a), b) == SetDiscount(c, b)
    ensures Total(SetDiscount(SetDiscount(c, a), b)) == Sum(c.items) - b
  {
  }

  /** The total is not clamped: a discount above the item sum gives a negative
      total, by exactly the excess. */
  lemma TotalNotClamped(c: Cart)
    ensures c.discount > Sum(c.items) <==> Total(c) < 0.0
  {
  }

  /** Milk 2.50 x 2 then Bread 1.00 x 3 total 8.00, and a 1.50 discount makes 6.50. */
  lemma ScenarioAddThenDiscount()
    ensures Total(AddItem(AddItem(NewCart(), Product("Milk", 2.5, 2)), Product("Bread", 1.0, 3))) == 8.0
    ensures Total(SetDiscount(AddItem(AddItem(NewCart(), Product("Milk", 2.5, 2)), Product("Bread", 1.0, 3)), 1.5))
         == 6.5
  {
    var milk, bread := Product("Milk", 2.5, 2), Product("Bread", 1.0, 3);
    TotalAfterAdd(NewCart(), milk);
    TotalAfterAdd(AddItem(NewCart(), milk), bread);
    assert LineTotal(milk) == 5.0;
  }

  /** Removing item 0 (Milk) from the discounted cart leaves Bread alone with the discount. */
  lemma ScenarioRemoveFirst()
    ensures RemoveItem(SetDiscount(AddItem(AddItem(NewCart(), Product("Milk", 2.5, 2)), Product("Bread", 1.0, 3)), 1.5), 0)
         == Ok(Cart([Product("Bread", 1.0, 3)], 1.5))
  {
    var milk, bread := Product("Milk", 2.5, 2), Product("Bread", 1.0, 3);
    var c := SetDiscount(AddItem(AddItem(NewCart(), milk), bread), 1.5);
    assert c.items == [milk, bread];
    assert c.items[..0] + c.items[1..] == [bread];
  }

  /** Bread 1.00 x 3 alone: a 1.50 discount leaves 1.50, a 5.00 discount drives
      the total to -2.00 (no clamp at zero). */
  lemma ScenarioBreadOnly()
    ensures Total(Cart([Product("Bread", 1.0, 3)], 1.5)) == 1.5
    ensures Total(Cart([Product("Bread", 1.0, 3)], 5.0)) == -2.0
  {
    var bread := Product("Bread", 1.0, 3);
    assert [bread][1..] == [];
    assert LineTotal(bread) == 3.0;
    assert Sum([bread]) == LineTotal(bread) + Sum([]);
    assert Sum([bread]) == 3.0;
  }
}
