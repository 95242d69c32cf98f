/**
 * `ShoppingCartService`: a list of cart lines with derived totals.
 * Prices are whole cents.
 */
module ShoppingCart {

  datatype CartItem = CartItem(id: string, name: string, price: int, quantity: int)

  /** What `addItem` is given. */
  datatype Product = Product(id: string, name: string, price: int)

  ghost predicate DistinctIds(items: seq<CartItem>) {
    forall i, j :: 0 <= i < j < |items| ==> items[i].id != items[j].id
  }

  ghost predicate PositiveQuantities(items: seq<CartItem>) {
    forall i :: 0 <= i < |items| ==> items[i].quantity >= 1
  }

  /** Where `items.find(item => item.id === id)` stops: the first line with
      that id, or `|items|` when there is none. */
  function FindIndex(items: seq<CartItem>, id: string): (k: nat)
    ensures k <= |items|
    ensures k < |items| ==> items[k].id == id
    ensures forall j :: 0 <= j < k ==> items[j].id != id
  {
    if items == [] then 0
    else if items[0].id == id then 0
    else 1 + FindIndex(items[1..], id)
  }

  /** `items.filter(item => item.id !== id)`. */
  function WithoutId(items: seq<CartItem>, id: string): (r: seq<CartItem>)
    ensures |r| <= |items|
    ensures forall x :: x in r <==> x in items && x.id != id
  {
    if items == [] then []
    else if items[0].id == id then WithoutId(items[1..], id)
    else [items[0]] + WithoutId(items[1..], id)
  }

  /** `items.reduce((sum, item) => sum + item.quantity, 0)`. */
  function TotalQuantity(items: seq<CartItem>): (n: int)
    ensures |items| == 1 ==> n == items[0].quantity
  {
    if items == [] then 0 else TotalQuantity(items[..|items| - 1]) + items[|items| - 1].quantity
  }

  /** `items.reduce((sum, item) => sum + item.price * item.quantity, 0)`. */
  function TotalPrice(items: seq<CartItem>): (p: int)
    ensures |items| == 1 ==> p == items[0].price * items[0].quantity
  {
    if items == [] then 0
    else TotalPrice(items[..|items| - 1]) + items[|items| - 1].price * items[|items| - 1].quantity
  }

  /** Both totals add up over a concatenation. */
  lemma {:induction false} TotalsOfAppend(a: seq<CartItem>, b: seq<CartItem>)
    ensures TotalQuantity(a + b) == TotalQuantity(a) + TotalQuantity(b)
    ensures TotalPrice(a + b) == TotalPrice(a) + TotalPrice(b)
  {
    if b != [] {
      assert (a + b)[..|a + b| - 1] == a + b[..|b| - 1];
      TotalsOfAppend(a, b[..|b| - 1]);
    } else {
      assert a + b == a;
    }
  }

  /** The totals of a single line. */
  lemma TotalsOfLine(x: CartItem)
    ensures TotalQuantity([x]) == x.quantity
    ensures TotalPrice([x]) == x.price * x.quantity
  {
    assert [x][..0] == [];
  }

  /** The totals of a cart cut around one line. */
  lemma TotalsAround(a: seq<CartItem>, x: CartItem, b: seq<CartItem>)
    ensures TotalQuantity(a + [x] + b) == TotalQuantity(a) + x.quantity + TotalQuantity(b)
    ensures TotalPrice(a + [x] + b) == TotalPrice(a) + x.price * x.quantity + TotalPrice(b)
  {
    TotalsOfAppend(a + [x], b);
    TotalsOfAppend(a, [x]);
    TotalsOfLine(x);
  }

  /** Setting the quantity of line `k` to `q` replaces that line's share of
      the item count and of the subtotal and leaves the other lines' shares. */
  lemma TotalsAfterUpdate(items: seq<CartItem>, k: nat, q: int)
    requires k < |items|
    ensures TotalQuantity(items[k := items[k].(quantity := q)]) == TotalQuantity(items) - items[k].quantity + q
    ensures TotalPrice(items[k := items[k].(quantity := q)]) ==
            TotalPrice(items) - items[k].price * items[k].quantity + items[k].price * q
  {
    var updated := items[k := items[k].(quantity := q)];
    assert items == items[..k] + [items[k]] + items[k + 1..];
    assert updated == items[..k] + [updated[k]] + items[k + 1..];
    TotalsAround(items[..k], items[k], items[k + 1..]);
    TotalsAround(items[..k], updated[k], items[k + 1..]);
  }

  /** Dropping line `k` takes away exactly that line's share of the item count. */
  lemma TotalsAfterDrop(items: seq<CartItem>, k: nat)
    requires k < |items|
    ensures TotalQuantity(items[..k] + items[k + 1..]) == TotalQuantity(items) - items[k].quantity
    ensures TotalPrice(items[..k] + items[k + 1..]) == TotalPrice(items) - items[k].price * items[k].quantity
  {
    var a, x, b := items[..k], items[k], items[k + 1..];
    SplitAt(items, k);
    TotalsAround(a, x, b);
    TotalsOfAppend(a, b);
  }

  /** What dropping an id does to a valid cart: the line with that id goes,
      if there is one, and the count loses its quantity. */
  lemma RemoveFacts(items: seq<CartItem>, id: string)
    requires DistinctIds(items) && PositiveQuantities(items)
    ensures var kept, k := WithoutId(items, id), FindIndex(items, id);
      && DistinctIds(kept) && PositiveQuantities(kept)
      && kept == (if k < |items| then items[..k] + items[k + 1..] else items)
      && TotalQuantity(kept) == TotalQuantity(items) - (if k < |items| then items[k].quantity else 0)
  {
    var k := FindIndex(items, id);
    if k < |items| {
      WithoutIdDropsLine(items, k);
      TotalsAfterDrop(items, k);
    } else {
      WithoutAbsentId(items, id);
    }
    WithoutIdKeepsInvariant(items, id);
  }

  lemma SplitAt(items: seq<CartItem>, k: nat)
    requires k < |items|
    ensures items == items[..k] + [items[k]] + items[k + 1..]
  {
  }

  /** Changing the quantity of one line to a positive number keeps ids
      distinct and quantities positive. */
  lemma UpdateKeepsInvariant(items: seq<CartItem>, k: nat, q: int)
    requires DistinctIds(items) && PositiveQuantities(items)
    requires k < |items| && q >= 1
    ensures DistinctIds(items[k := items[k].(quantity := q)])
    ensures PositiveQuantities(items[k := items[k].(quantity := q)])
  {
  }

  /** Appending a line with a new id and a positive quantity keeps ids
      distinct and quantities positive. */
  lemma AppendKeepsInvariant(items: seq<CartItem>, line: CartItem)
    requires DistinctIds(items) && PositiveQuantities(items)
    requires forall j :: 0 <= j < |items| ==> items[j].id != line.id
    requires line.quantity >= 1
    ensures DistinctIds(items + [line]) && PositiveQuantities(items + [line])
  {
  }

  /** One more unit on line `k` keeps the invariant, adds one to the item
      count and that line's price to the subtotal. */
  lemma BumpLineFacts(items: seq<CartItem>, k: nat)
    requires DistinctIds(items) && PositiveQuantities(items) && k < |items|
    ensures var bumped := items[k := items[k].(quantity := items[k].quantity + 1)];
      && DistinctIds(bumped) && PositiveQuantities(bumped)
      && TotalQuantity(bumped) == TotalQuantity(items) + 1
      && TotalPrice(bumped) == TotalPrice(items) + items[k].price
  {
    var x := items[k];
    var bumped := items[k := x.(quantity := x.quantity + 1)];
    assert TotalQuantity(bumped) == TotalQuantity(items) + 1 && TotalPrice(bumped) == TotalPrice(items) + x.price by {
      TotalsAfterUpdate(items, k, x.quantity + 1);
      OneMoreUnit(x.price, x.quantity);
    }
    assert DistinctIds(bumped) && PositiveQuantities(bumped) by {
      UpdateKeepsInvariant(items, k, x.quantity + 1);
    }
  }

  lemma OneMoreUnit(price: int, quantity: int)
    ensures price * (quantity + 1) == price * quantity + price
  {
  }

  /** A new line of quantity 1 keeps the invariant, adds one to the item
      count and its price to the subtotal. */
  lemma NewLineFacts(items: seq<CartItem>, product: Product)
    requires DistinctIds(items) && PositiveQuantities(items)
    requires forall j :: 0 <= j < |items| ==> items[j].id != product.id
    ensures var added := items + [CartItem(product.id, product.name, product.price, 1)];
      && DistinctIds(added) && PositiveQuantities(added)
      && TotalQuantity(added) == TotalQuantity(items) + 1
      && TotalPrice(added) == TotalPrice(items) + product.price
  {
    var line := CartItem(product.id, product.name, product.price, 1);
    var added := items + [line];
    assert TotalQuantity(added) == TotalQuantity(items) + 1 && TotalPrice(added) == TotalPrice(items) + product.price by {
      TotalsOfAppend(items, [line]);
      TotalsOfLine(line);
    }
    assert DistinctIds(added) && PositiveQuantities(added) by {
      AppendKeepsInvariant(items, line);
    }
  }

  /** Filtering out an id keeps ids distinct and quantities positive. */
  lemma {:induction false} WithoutIdKeepsInvariant(items: seq<CartItem>, id: string)
    requires DistinctIds(items) && PositiveQuantities(items)
    ensures DistinctIds(WithoutId(items, id)) && PositiveQuantities(WithoutId(items, id))
  {
    var r := WithoutId(items, id);
    forall i | 0 <= i < |r| ensures r[i].quantity >= 1 {
      assert r[i] in items;
    }
    if items != [] {
      var tail := items[1..];
      WithoutIdKeepsInvariant(tail, id);
      if items[0].id != id {
        var rt := WithoutId(tail, id);
        assert r == [items[0]] + rt;
        forall j | 0 <= j < |rt| ensures rt[j].id != items[0].id {
          assert rt[j] in tail;
        }
      }
    }
  }

  /** With distinct ids, removing the id of line `k` drops exactly that line
      and keeps the others in their order. */
  lemma {:induction false} WithoutIdDropsLine(items: seq<CartItem>, k: nat)
    requires DistinctIds(items) && k < |items|
    ensures WithoutId(items, items[k].id) == items[..k] + items[k + 1..]
  {
    var id := items[k].id;
    if k == 0 {
      WithoutAbsentId(items[1..], id);
      assert items[..0] + items[1..] == items[1..];
    } else {
      var t := items[1..];
      DistinctTail(items);
      WithoutIdDropsLine(t, k - 1);
      assert WithoutId(items, id) == [items[0]] + WithoutId(t, id) by {
        assert items[0].id != id;
      }
      SlicesOfTail(items, k);
    }
  }

  /** Dropping the first line keeps ids distinct. */
  lemma DistinctTail(items: seq<CartItem>)
    requires DistinctIds(items) && items != []
    ensures DistinctIds(items[1..])
  {
    var t := items[1..];
    forall i, j | 0 <= i < j < |t| ensures t[i].id != t[j].id {
      assert t[i] == items[i + 1] && t[j] == items[j + 1];
    }
  }

  /** The cart around line `k > 0` is its first line and the tail around line `k - 1`. */
  lemma SlicesOfTail(items: seq<CartItem>, k: nat)
    requires 0 < k < |items|
    ensures items[..k] + items[k + 1..] == [items[0]] + (items[1..][..k - 1] + items[1..][k..])
  {
    var t := items[1..];
    assert items[..k] == [items[0]] + t[..k - 1];
    assert items[k + 1..] == t[k..];
  }

  /** Removing an id that no line has changes nothing. */
  lemma {:induction false} WithoutAbsentId(items: seq<CartItem>, id: string)
    requires forall j :: 0 <= j < |items| ==> items[j].id != id
    ensures WithoutId(items, id) == items
  {
    if items != [] {
      WithoutAbsentId(items[1..], id);
      assert [items[0]] + items[1..] == items;
    }
  }

  /** Every line counts at least once, so the item count is at least the
      number of lines; in particular it is 0 exactly for the empty cart. */
  lemma {:induction false} ItemCountBoundsLines(items: seq<CartItem>)
    ensures PositiveQuantities(items) ==> TotalQuantity(items) >= |items|
    ensures PositiveQuantities(items) ==> (TotalQuantity(items) == 0 <==> items == [])
  {
    if items != [] {
      ItemCountBoundsLines(items[..|items| - 1]);
    }
  }

  class ShoppingCartService {
    var items: seq<CartItem>

    /** Every id appears on at most one line and every line holds at least one unit. */
    ghost predicate Valid()
      reads this
    {
      DistinctIds(items) && PositiveQuantities(items)
    }

    constructor ()
      ensures Valid() && items == []
    {
      items := [];
    }

    /** The `itemCount` getter. */
    function ItemCount(): (n: int)
      reads this
      ensures items == [] ==> n == 0
    {
      TotalQuantity(items)
    }

    /** The `subtotal` getter. */
    function Subtotal(): (total: int)
      reads this
      ensures items == [] ==> total == 0
    {
      TotalPrice(items)
    }

    /** The `isEmpty` getter; on a valid cart it agrees with a zero item count. */
    function IsEmpty(): (b: bool)
      reads this
      ensures Valid() ==> (b <==> ItemCount() == 0)
    {
      ItemCountBoundsLines(items);
      |items| == 0
    }

    /** `addItem`: a known id gets one more unit on its line; a new id gets a
        line of quantity 1 at the end. Either way the item count grows by one. */
    method AddItem(product: Product)
      requires Valid()
      modifies this
      ensures Valid()
      ensures var k := FindIndex(old(items), product.id);
        if k < |old(items)| then
          items == old(items)[k := old(items)[k].(quantity := old(items)[k].quantity + 1)]
        else
          items == old(items) + [CartItem(product.id, product.name, product.price, 1)]
      ensures ItemCount() == old(ItemCount()) + 1
      ensures var k := FindIndex(old(items), product.id);
        Subtotal() == old(Subtotal()) + (if k < |old(items)| then old(items)[k].price else product.price)
    {
      var k := FindIndex(items, product.id);
      if k < |items| {
        BumpLineFacts(items, k);
        items := items[k := items[k].(quantity := items[k].quantity + 1)];
      } else {
        NewLineFacts(items, product);
        items := items + [CartItem(product.id, product.name, product.price, 1)];
      }
    }

    /** `removeItem`: drops the line with that id, keeping the order of the
        rest; an unknown id changes nothing. */
    method RemoveItem(id: string)
      requires Valid()
      modifies this
      ensures Valid()
      ensures items == WithoutId(old(items), id)
      ensures forall x :: x in items ==> x.id != id
      ensures var k := FindIndex(old(items), id);
        items == if k < |old(items)| then old(items)[..k] + old(items)[k + 1..] else old(items)
      ensures var k := FindIndex(old(items), id);
        ItemCount() == old(ItemCount()) - (if k < |old(items)| then old(items)[k].quantity else 0)
    {
      RemoveFacts(items, id);
      items := WithoutId(items, id);
    }

    /** `updateQuantity`: a quantity of 0 or less removes the line; a positive
        one replaces that line's quantity and nothing else. */
    method UpdateQuantity(id: string, quantity: int)
      requires Valid()
      modifies this
      ensures Valid()
      ensures quantity <= 0 ==> items == WithoutId(old(items), id)
      ensures quantity > 0 ==>
        var k := FindIndex(old(items), id);
        items == if k < |old(items)| then old(items)[k := old(items)[k].(quantity := quantity)] else old(items)
      ensures quantity > 0 && FindIndex(old(items), id) < |old(items)| ==>
        ItemCount() == old(ItemCount()) - old(items)[FindIndex(old(items), id)].quantity + quantity
    {
      if quantity <= 0 {
        RemoveItem(id);
      } else {
        var k := FindIndex(items, id);
        if k < |items| {
          TotalsAfterUpdate(items, k, quantity);
          UpdateKeepsInvariant(items, k, quantity);
          items := items[k := items[k].(quantity := quantity)];
        }
      }
    }

    /** `clearCart`. */
    method ClearCart()
      modifies this
      ensures Valid() && items == [] && ItemCount() == 0 && Subtotal() == 0
    {
      items := [];
    }
  }
}
