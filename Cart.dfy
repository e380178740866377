/**
 * The customer-mode cart as a value: adding a product by key, removing one
 * unit of a cart line by its identity, and the amount due at checkout. The
 * view model applies these to its `customerCart` field.
 *
 * A Swift `OrderItem` is Identifiable through a fresh UUID, and removal finds
 * the line by that identity; here a cart line carries an explicit `id`.
 */
module Cart {
  import opened Wrappers
  import opened GameData
  import opened Quiz

  datatype CartEntry = CartEntry(id: nat, productKey: string, quantity: int)

  /** Index of the first line with the key (`firstIndex(where:)` on the key). */
  function IndexOfKey(cart: seq<CartEntry>, key: string): (r: Option<nat>)
    ensures r.Some? ==> r.value < |cart| && cart[r.value].productKey == key
    ensures r.Some? ==> forall j :: 0 <= j < r.value ==> cart[j].productKey != key
    ensures r.None? <==> forall j :: 0 <= j < |cart| ==> cart[j].productKey != key
  {
    if cart == [] then None
    else if cart[0].productKey == key then Some(0)
    else match IndexOfKey(cart[1..], key)
      case Some(i) => Some(i + 1)
      case None => None
  }

  /** Index of the first line with the identity (`firstIndex(where:)` on the id). */
  function IndexOfId(cart: seq<CartEntry>, id: nat): (r: Option<nat>)
    ensures r.Some? ==> r.value < |cart| && cart[r.value].id == id
    ensures r.Some? ==> forall j :: 0 <= j < r.value ==> cart[j].id != id
    ensures r.None? <==> forall j :: 0 <= j < |cart| ==> cart[j].id != id
  {
    if cart == [] then None
    else if cart[0].id == id then Some(0)
    else match IndexOfId(cart[1..], id)
      case Some(i) => Some(i + 1)
      case None => None
  }

  /** `addToCustomerCart`: one more of an existing line, or a new line of quantity 1 at the end. */
  function CartAdded(cart: seq<CartEntry>, key: string, freshId: nat): (r: seq<CartEntry>)
  {
    match IndexOfKey(cart, key)
    case Some(i) => cart[i := cart[i].(quantity := cart[i].quantity + 1)]
    case None => cart + [CartEntry(freshId, key, 1)]
  }

  /** `removeFromCustomerCart`: one less of the identified line, dropping it at quantity 1. */
  function CartRemoved(cart: seq<CartEntry>, id: nat): (r: seq<CartEntry>)
  {
    match IndexOfId(cart, id)
    case Some(i) =>
      if cart[i].quantity > 1 then cart[i := cart[i].(quantity := cart[i].quantity - 1)]
      else cart[..i] + cart[i + 1..]
    case None => cart
  }

  /** Keys and identities are unique and every line holds at least one unit. */
  predicate CartWellFormed(cart: seq<CartEntry>)
  {
    (forall i, j :: 0 <= i < j < |cart| ==> cart[i].productKey != cart[j].productKey) &&
    (forall i, j :: 0 <= i < j < |cart| ==> cart[i].id != cart[j].id) &&
    (forall i :: 0 <= i < |cart| ==> cart[i].quantity >= 1)
  }

  /** Every identity in the cart was issued before `bound`. */
  predicate IdsBelow(cart: seq<CartEntry>, bound: nat)
  {
    forall i :: 0 <= i < |cart| ==> cart[i].id < bound
  }

  function EntryQuantity(entry: CartEntry, key: string): int
  {
    if entry.productKey == key then entry.quantity else 0
  }

  /** Units of a product in the cart. */
  function QuantityOf(cart: seq<CartEntry>, key: string): int
  {
    if cart == [] then 0 else EntryQuantity(cart[0], key) + QuantityOf(cart[1..], key)
  }

  /** The cart as the order lines the checkout sums. */
  function CartLines(cart: seq<CartEntry>): (lines: seq<OrderItem>)
    ensures |lines| == |cart|
    ensures forall i :: 0 <= i < |cart| ==> lines[i] == OrderItem(cart[i].productKey, cart[i].quantity)
    ensures CartWellFormed(cart) ==> DistinctItemKeys(lines)
  {
    seq(|cart|, i requires 0 <= i < |cart| => OrderItem(cart[i].productKey, cart[i].quantity))
  }

  /** The amount `confirmPayment` expects: price times quantity over lines whose product is known. */
  function CartTotal(cart: seq<CartEntry>, products: seq<Product>): int
  {
    PriceTotal(CartLines(cart), products)
  }

  // --- Quantity bookkeeping ---

  lemma {:induction false} QuantityOfAppend(a: seq<CartEntry>, b: seq<CartEntry>, key: string)
    ensures QuantityOf(a + b, key) == QuantityOf(a, key) + QuantityOf(b, key)
  {
    if a != [] {
      assert (a + b)[1..] == a[1..] + b;
      QuantityOfAppend(a[1..], b, key);
    } else {
      assert a + b == b;
    }
  }

  /** Replacing one line changes the count by the difference of the two lines. */
  lemma QuantityOfUpdate(cart: seq<CartEntry>, i: nat, entry: CartEntry, key: string)
    requires i < |cart|
    ensures QuantityOf(cart[i := entry], key) ==
            QuantityOf(cart, key) - EntryQuantity(cart[i], key) + EntryQuantity(entry, key)
  {
    assert cart == cart[..i] + [cart[i]] + cart[i + 1..];
    assert cart[i := entry] == cart[..i] + [entry] + cart[i + 1..];
    QuantityOfAppend(cart[..i] + [cart[i]], cart[i + 1..], key);
    QuantityOfAppend(cart[..i], [cart[i]], key);
    QuantityOfAppend(cart[..i] + [entry], cart[i + 1..], key);
    QuantityOfAppend(cart[..i], [entry], key);
  }

  /** Deleting one line takes away its units. */
  lemma QuantityOfDelete(cart: seq<CartEntry>, i: nat, key: string)
    requires i < |cart|
    ensures QuantityOf(cart[..i] + cart[i + 1..], key) == QuantityOf(cart, key) - EntryQuantity(cart[i], key)
  {
    assert cart == cart[..i] + [cart[i]] + cart[i + 1..];
    QuantityOfAppend(cart[..i] + [cart[i]], cart[i + 1..], key);
    QuantityOfAppend(cart[..i], [cart[i]], key);
    QuantityOfAppend(cart[..i], cart[i + 1..], key);
  }

  // --- Properties of adding and removing ---

  /** Adding keeps the cart well formed and issues the fresh identity only when a line is appended. */
  lemma CartAddedWellFormed(cart: seq<CartEntry>, key: string, freshId: nat)
    requires CartWellFormed(cart) && IdsBelow(cart, freshId)
    ensures CartWellFormed(CartAdded(cart, key, freshId))
    ensures IdsBelow(CartAdded(cart, key, freshId), freshId + 1)
  {
  }

  /** Adding raises the count of that product by one and leaves every other product alone. */
  lemma CartAddedQuantity(cart: seq<CartEntry>, key: string, freshId: nat, other: string)
    ensures QuantityOf(CartAdded(cart, key, freshId), other) == QuantityOf(cart, other) + (if other == key then 1 else 0)
  {
    match IndexOfKey(cart, key)
    case Some(i) =>
      QuantityOfUpdate(cart, i, cart[i].(quantity := cart[i].quantity + 1), other);
    case None =>
      QuantityOfAppend(cart, [CartEntry(freshId, key, 1)], other);
      assert QuantityOf([CartEntry(freshId, key, 1)], other) == EntryQuantity(CartEntry(freshId, key, 1), other);
  }

  /** `CartAddedQuantity` for every product at once. */
  lemma CartAddedQuantities(cart: seq<CartEntry>, key: string, freshId: nat)
    ensures forall k :: QuantityOf(CartAdded(cart, key, freshId), k) == QuantityOf(cart, k) + (if k == key then 1 else 0)
  {
    forall k ensures QuantityOf(CartAdded(cart, key, freshId), k) == QuantityOf(cart, k) + (if k == key then 1 else 0) {
      CartAddedQuantity(cart, key, freshId, k);
    }
  }

  /** Adding touches no line with another key. */
  lemma CartAddedKeepsOthers(cart: seq<CartEntry>, key: string, freshId: nat)
    ensures |CartAdded(cart, key, freshId)| >= |cart|
    ensures forall i :: 0 <= i < |cart| && cart[i].productKey != key ==> CartAdded(cart, key, freshId)[i] == cart[i]
  {
  }

  /** Removing keeps the cart well formed. */
  lemma CartRemovedWellFormed(cart: seq<CartEntry>, id: nat, bound: nat)
    requires CartWellFormed(cart) && IdsBelow(cart, bound)
    ensures CartWellFormed(CartRemoved(cart, id))
    ensures IdsBelow(CartRemoved(cart, id), bound)
  {
    match IndexOfId(cart, id)
    case Some(i) =>
      if cart[i].quantity <= 1 {
        DeleteKeepsWellFormed(cart, i, bound);
      }
    case None =>
  }

  lemma DeleteKeepsWellFormed(cart: seq<CartEntry>, i: nat, bound: nat)
    requires CartWellFormed(cart) && IdsBelow(cart, bound)
    requires i < |cart|
    ensures CartWellFormed(cart[..i] + cart[i + 1..])
    ensures IdsBelow(cart[..i] + cart[i + 1..], bound)
  {
    var rest := cart[..i] + cart[i + 1..];
    assert forall j :: 0 <= j < |rest| ==> rest[j] == cart[if j < i then j else j + 1];
    forall a, b | 0 <= a < b < |rest|
      ensures rest[a].productKey != rest[b].productKey && rest[a].id != rest[b].id
    {
      var a', b' := if a < i then a else a + 1, if b < i then b else b + 1;
      assert rest[a] == cart[a'] && rest[b] == cart[b'] && a' < b';
    }
  }

  /** Removing the line with the identity takes one unit of its product away; nothing else changes. */
  lemma CartRemovedQuantity(cart: seq<CartEntry>, id: nat, other: string)
    requires CartWellFormed(cart)
    ensures IndexOfId(cart, id).None? ==> CartRemoved(cart, id) == cart
    ensures IndexOfId(cart, id).Some? ==>
      QuantityOf(CartRemoved(cart, id), other) ==
        QuantityOf(cart, other) - (if cart[IndexOfId(cart, id).value].productKey == other then 1 else 0)
  {
    match IndexOfId(cart, id)
    case Some(i) =>
      if cart[i].quantity > 1 {
        QuantityOfUpdate(cart, i, cart[i].(quantity := cart[i].quantity - 1), other);
      } else {
        QuantityOfDelete(cart, i, other);
      }
    case None =>
  }

  // --- Amount due ---

  /** Replacing one line changes the amount due by the difference of the two lines. */
  lemma CartTotalUpdate(cart: seq<CartEntry>, i: nat, entry: CartEntry, products: seq<Product>)
    requires i < |cart|
    ensures CartTotal(cart[i := entry], products) ==
            CartTotal(cart, products)
            - LineTotal(OrderItem(cart[i].productKey, cart[i].quantity), products)
            + LineTotal(OrderItem(entry.productKey, entry.quantity), products)
  {
    var lines := CartLines(cart);
    var newLines := CartLines(cart[i := entry]);
    var old_ := OrderItem(cart[i].productKey, cart[i].quantity);
    var new_ := OrderItem(entry.productKey, entry.quantity);
    assert lines == lines[..i] + [old_] + lines[i + 1..];
    assert newLines == lines[..i] + [new_] + lines[i + 1..];
    PriceTotalAppend(lines[..i] + [old_], lines[i + 1..], products);
    PriceTotalAppend(lines[..i], [old_], products);
    PriceTotalAppend(lines[..i] + [new_], lines[i + 1..], products);
    PriceTotalAppend(lines[..i], [new_], products);
    assert PriceTotal([old_], products) == LineTotal(old_, products) by {
      assert [old_][..0] == [];
    }
    assert PriceTotal([new_], products) == LineTotal(new_, products) by {
      assert [new_][..0] == [];
    }
  }

  /** Putting a known product in the cart raises the amount due by exactly its price. */
  lemma CartTotalAdded(cart: seq<CartEntry>, product: Product, freshId: nat, products: seq<Product>)
    requires FindProduct(products, product.key) == Some(product)
    ensures CartTotal(CartAdded(cart, product.key, freshId), products) == CartTotal(cart, products) + product.price
  {
    match IndexOfKey(cart, product.key)
    case Some(i) => CartTotalBumped(cart, i, product, products);
    case None => CartTotalAppended(cart, CartEntry(freshId, product.key, 1), product, products);
  }

  lemma CartTotalBumped(cart: seq<CartEntry>, i: nat, product: Product, products: seq<Product>)
    requires FindProduct(products, product.key) == Some(product)
    requires i < |cart| && cart[i].productKey == product.key
    ensures CartTotal(cart[i := cart[i].(quantity := cart[i].quantity + 1)], products) == CartTotal(cart, products) + product.price
  {
    var q := cart[i].quantity;
    CartTotalUpdate(cart, i, cart[i].(quantity := q + 1), products);
    assert LineTotal(OrderItem(product.key, q), products) == product.price * q;
    assert LineTotal(OrderItem(product.key, q + 1), products) == product.price * (q + 1) == product.price * q + product.price;
  }

  lemma CartTotalAppended(cart: seq<CartEntry>, entry: CartEntry, product: Product, products: seq<Product>)
    requires FindProduct(products, product.key) == Some(product)
    requires entry.productKey == product.key && entry.quantity == 1
    ensures CartTotal(cart + [entry], products) == CartTotal(cart, products) + product.price
  {
    var line := OrderItem(product.key, 1);
    assert CartLines(cart + [entry]) == CartLines(cart) + [line];
    PriceTotalAppend(CartLines(cart), [line], products);
    assert [line][..0] == [];
    assert LineTotal(line, products) == product.price;
  }
}
