/**
 * Round generation and answer judging of the shop game: the three order
 * generators (shopping, calculation quiz, price quiz), the whole-yen payment
 * rounding of the change quiz, and the judge that compares a submission with
 * the current order. Randomness is passed in: a shuffle is an index
 * permutation, and every `Int.random` draw is a parameter with its range as
 * a precondition.
 */
module Quiz {
  import opened Wrappers
  import opened GameData

  datatype GameMode = Shopping | CalculationQuiz | PriceQuiz | ListeningQuiz

  // Keys of the "answer" items a quiz order carries after its product lines.
  const TotalQuantityAnswerKey: string := "total_quantity_answer"
  const PriceAnswerKey: string := "price_answer"
  const PaymentAmountKey: string := "payment_amount"
  const ChangeAnswerKey: string := "change_answer"

  predicate IsSentinel(key: string)
  {
    key == TotalQuantityAnswerKey || key == PriceAnswerKey || key == PaymentAmountKey || key == ChangeAnswerKey
  }

  predicate NoSentinelKeys(products: seq<Product>)
  {
    forall i :: 0 <= i < |products| ==> !IsSentinel(products[i].key)
  }

  /** No shipped product uses an answer key. */
  lemma ShippedTablesHaveNoSentinels(shop: ShopType)
    ensures NoSentinelKeys(ProductsFor(shop))
  {
  }

  predicate DistinctItemKeys(items: seq<OrderItem>)
  {
    forall i, j :: 0 <= i < j < |items| ==> items[i].productKey != items[j].productKey
  }

  predicate QuantitiesWithin(quantities: seq<int>, maxQuantity: int)
  {
    forall i :: 0 <= i < |quantities| ==> 1 <= quantities[i] <= maxQuantity
  }

  function Min(a: int, b: int): int
  {
    if a <= b then a else b
  }

  function Max(a: int, b: int): int
  {
    if a >= b then a else b
  }

  /** The first k product lines of a draw: the k-th shuffled product with the k-th drawn quantity. */
  function ProductLines(products: seq<Product>, perm: seq<nat>, quantities: seq<int>, k: nat): (lines: seq<OrderItem>)
    requires IsPermutation(perm, |products|)
    requires k <= |products| && k <= |quantities|
    ensures |lines| == k
    ensures forall i :: 0 <= i < k ==> lines[i] == OrderItem(products[perm[i]].key, quantities[i])
    ensures DistinctKeys(products) ==> DistinctItemKeys(lines)
  {
    seq(k, i requires 0 <= i < k => OrderItem(products[perm[i]].key, quantities[i]))
  }

  // ---------------------------------------------------------------------
  // Shopping order
  // ---------------------------------------------------------------------

  /** Upper bound on the number of product kinds in a shopping order, by score tier. */
  function MaxItemTypes(score: int, productCount: nat): int
  {
    if score < 2 then 1
    else if score < 5 then Min(2, productCount)
    else if score < 8 then Min(3, productCount)
    else Min(3, productCount)
  }

  /** Upper bound on the quantity of each line of a shopping order, by score tier. */
  function MaxQuantityPerItem(score: int): int
  {
    if score < 2 then 1
    else if score < 5 then 2
    else if score < 8 then 2
    else 3
  }

  /**
   * Builds a shopping order: the first `kinds` products of the shuffle `perm`,
   * each with its drawn quantity. The source traps on an empty product list
   * (an empty `1...0` range or an index past the end), hence the first requires.
   */
  method ShoppingOrder(score: int, products: seq<Product>, perm: seq<nat>, kinds: int, quantities: seq<int>)
    returns (order: Order)
    requires |products| >= 1
    requires IsPermutation(perm, |products|)
    requires 1 <= kinds <= MaxItemTypes(score, |products|)
    requires |quantities| == kinds && QuantitiesWithin(quantities, MaxQuantityPerItem(score))
    ensures kinds <= |products|
    ensures order == Order(ProductLines(products, perm, quantities, kinds))
    ensures 1 <= |order.items| <= MaxItemTypes(score, |products|)
    ensures forall i :: 0 <= i < |order.items| ==> 1 <= order.items[i].quantity <= MaxQuantityPerItem(score)
    ensures DistinctKeys(products) ==> DistinctItemKeys(order.items)
  {
    var available := Permute(products, perm);
    PermutePreserves(products, perm);
    var items: seq<OrderItem> := [];
    for i := 0 to kinds
      invariant |items| == i
      invariant forall j :: 0 <= j < i ==> items[j] == OrderItem(available[j].key, quantities[j])
    {
      items := items + [OrderItem(available[i].key, quantities[i])];
    }
    order := Order(items);
  }

  // ---------------------------------------------------------------------
  // Calculation quiz
  // ---------------------------------------------------------------------

  /**
   * Two shuffled products with quantities 1..3 and an answer line holding
   * their sum; None when there are fewer than two products (the source then
   * switches to shopping mode and builds a shopping order instead).
   */
  function CalculationQuizOrder(products: seq<Product>, perm: seq<nat>, quantities: seq<int>): (r: Option<Order>)
    requires IsPermutation(perm, |products|)
    requires |products| >= 2 ==> |quantities| == 2 && QuantitiesWithin(quantities, 3)
    ensures r.None? <==> |products| < 2
    ensures r.Some? ==> |r.value.items| == 3
    ensures r.Some? ==> r.value.items[..2] == ProductLines(products, perm, quantities, 2)
    ensures r.Some? ==> r.value.items[2].productKey == TotalQuantityAnswerKey
    ensures r.Some? ==> r.value.items[2].quantity == r.value.items[0].quantity + r.value.items[1].quantity
    ensures r.Some? ==> 2 <= r.value.items[2].quantity <= 6
    ensures r.Some? && DistinctKeys(products) ==> r.value.items[0].productKey != r.value.items[1].productKey
  {
    if |products| < 2 then None
    else
      var product1 := products[perm[0]];
      var product2 := products[perm[1]];
      var q1, q2 := quantities[0], quantities[1];
      Some(Order([OrderItem(product1.key, q1), OrderItem(product2.key, q2), OrderItem(TotalQuantityAnswerKey, q1 + q2)]))
  }

  // ---------------------------------------------------------------------
  // Price quiz
  // ---------------------------------------------------------------------

  /** From score 9 on, a price quiz asks for change. */
  predicate IsChangeQuiz(score: int)
  {
    score >= 9
  }

  /** Number of product lines in a price quiz; the change tier draws it (2 or 3). */
  function PriceItemCount(score: int, changeKinds: int): int
  {
    if IsChangeQuiz(score) then changeKinds
    else if score >= 6 then 3
    else if score >= 3 then 2
    else 2
  }

  function PriceMaxQuantity(score: int): int
  {
    if IsChangeQuiz(score) then 2
    else if score >= 6 then 2
    else if score >= 3 then 2
    else 1
  }

  /** Ceiling of a / b for a non-negative a, as `ceil(Double(a) / b)` computes it for these small amounts. */
  function CeilDiv(a: nat, b: nat): nat
    requires b > 0
  {
    (a + b - 1) / b
  }

  /**
   * The amount the customer hands over in a change quiz: rounded up to the
   * next 100 yen below 500, to the next 500 yen from 500 on, and pushed one
   * step further when it would equal the total, so that change is always due.
   */
  function PaymentFor(total: int): int
  {
    var rounded :=
      if total < 100 then 100
      else if total < 500 then CeilDiv(total, 100) * 100
      else Max(CeilDiv(total, 500) * 500, CeilDiv(total, 100) * 100);
    if rounded <= total then rounded + (if rounded < 500 then 100 else 500) else rounded
  }

  /** Rounding up by 100 or 500 yen lands at or above the amount and less than one step above it. */
  lemma CeilDivBounds(a: nat, b: nat)
    requires b == 100 || b == 500
    ensures a <= CeilDiv(a, b) * b < a + b
  {
    var q := (a + b - 1) / b;
    var m := (a + b - 1) % b;
    assert a + b - 1 == q * b + m && 0 <= m < b;
  }

  /**
   * The payment exceeds the total by at most one step (100 yen below 500,
   * 500 yen from 500 on), and is a whole number of 100-yen coins, of 500-yen
   * steps from 500 on.
   */
  lemma PaymentForBounds(total: int)
    ensures PaymentFor(total) > total
    ensures PaymentFor(total) % 100 == 0
    ensures total >= 500 ==> PaymentFor(total) % 500 == 0
    ensures 0 <= total < 500 ==> PaymentFor(total) - total <= 100
    ensures total >= 0 ==> PaymentFor(total) - total <= 500
  {
    if total < 100 {
      assert PaymentFor(total) == 100;
    } else if total < 500 {
      var c := PaymentCoins(total, 100);
      WholeCoins(c, 100);
    } else {
      var c := PaymentCoins(total, 500);
      WholeCoins(c, 500);
    }
  }

  /** A whole number of 100- or 500-yen steps is a whole number of 100-yen coins. */
  lemma WholeCoins(c: int, step: int)
    requires step == 100 || step == 500
    ensures (c * step) % step == 0 && (c * step) % 100 == 0
  {
    if step == 500 {
      assert c * step == (c * 5) * 100;
    }
  }

  /**
   * From 100 yen on, the payment is a whole number `c` of steps (100 yen below
   * 500, 500 yen from 500 on), above the total by at most one step.
   */
  lemma PaymentCoins(total: int, step: nat) returns (c: int)
    requires (100 <= total < 500 && step == 100) || (total >= 500 && step == 500)
    ensures PaymentFor(total) == c * step
    ensures total < c * step <= total + step
  {
    CeilDivBounds(total, step);
    var q := CeilDiv(total, step);
    if step == 500 {
      CeilDivBounds(total, 100);
      assert CeilDiv(total, 100) <= 5 * q;
      assert Max(q * 500, CeilDiv(total, 100) * 100) == q * 500;
    }
    c := if q * step <= total then q + 1 else q;
  }

  /** Sum of price times quantity over the first k lines of a price-quiz draw. */
  function SelectedTotal(products: seq<Product>, perm: seq<nat>, quantities: seq<int>, k: nat): int
    requires IsPermutation(perm, |products|)
    requires k <= |products| && k <= |quantities|
  {
    if k == 0 then 0
    else SelectedTotal(products, perm, quantities, k - 1) + products[perm[k - 1]].price * quantities[k - 1]
  }

  /** The answer lines a price quiz appends after its product lines. */
  function PriceAnswerLines(score: int, total: int): seq<OrderItem>
  {
    if IsChangeQuiz(score) then
      [OrderItem(PaymentAmountKey, PaymentFor(total)), OrderItem(ChangeAnswerKey, PaymentFor(total) - total)]
    else
      [OrderItem(PriceAnswerKey, total)]
  }

  /**
   * Builds a price quiz: the first lines of the shuffle with their drawn
   * quantities, then either the total as `price_answer`, or (from score 9) a
   * rounded `payment_amount` and the `change_answer`. None when the shop has
   * fewer products than the tier needs (the source then falls back to shopping).
   */
  method PriceQuizOrder(score: int, products: seq<Product>, perm: seq<nat>, changeKinds: int, quantities: seq<int>)
    returns (r: Option<Order>)
    requires IsPermutation(perm, |products|)
    requires IsChangeQuiz(score) ==> 2 <= changeKinds <= 3
    requires |products| >= PriceItemCount(score, changeKinds) ==>
      |quantities| == PriceItemCount(score, changeKinds) && QuantitiesWithin(quantities, PriceMaxQuantity(score))
    ensures r.None? <==> |products| < PriceItemCount(score, changeKinds)
    ensures r.Some? ==>
      var k := PriceItemCount(score, changeKinds);
      r.value == Order(ProductLines(products, perm, quantities, k) + PriceAnswerLines(score, SelectedTotal(products, perm, quantities, k)))
    ensures r.Some? && DistinctKeys(products) && NoSentinelKeys(products) ==>
      PriceTotal(r.value.items, products) == SelectedTotal(products, perm, quantities, PriceItemCount(score, changeKinds))
  {
    var count := PriceItemCount(score, changeKinds);
    if |products| < count {
      return None;
    }
    var selected := Permute(products, perm);
    var items: seq<OrderItem> := [];
    var totalPrice := 0;
    for i := 0 to count
      invariant items == ProductLines(products, perm, quantities, i)
      invariant totalPrice == SelectedTotal(products, perm, quantities, i)
    {
      var product := selected[i];
      var quantity := quantities[i];
      items := items + [OrderItem(product.key, quantity)];
      totalPrice := totalPrice + product.price * quantity;
    }
    var answers := PriceAnswerLines(score, totalPrice);
    if DistinctKeys(products) && NoSentinelKeys(products) {
      ProductLinesTotal(products, perm, quantities, count);
      SentinelNotFound(products, PriceAnswerKey);
      SentinelNotFound(products, PaymentAmountKey);
      SentinelNotFound(products, ChangeAnswerKey);
      PriceTotalIgnoresUnknown(items, answers, products);
    }
    return Some(Order(items + answers));
  }

  // ---------------------------------------------------------------------
  // One round: the random draw and the order it yields
  // ---------------------------------------------------------------------

  /**
   * The random choices of one round: the shuffle, the number of kinds of a
   * shopping order, the number of kinds of a change quiz, and the quantities.
   */
  datatype Draw = Draw(perm: seq<nat>, kinds: int, changeKinds: int, quantities: seq<int>)

  predicate ShoppingDrawOk(score: int, productCount: nat, d: Draw)
  {
    productCount >= 1 && IsPermutation(d.perm, productCount) &&
    1 <= d.kinds <= MaxItemTypes(score, productCount) &&
    |d.quantities| == d.kinds && QuantitiesWithin(d.quantities, MaxQuantityPerItem(score))
  }

  predicate CalculationDrawOk(productCount: nat, d: Draw)
  {
    IsPermutation(d.perm, productCount) && |d.quantities| == 2 && QuantitiesWithin(d.quantities, 3)
  }

  predicate PriceDrawOk(score: int, productCount: nat, d: Draw)
  {
    IsPermutation(d.perm, productCount) &&
    |d.quantities| == PriceItemCount(score, d.changeKinds) && QuantitiesWithin(d.quantities, PriceMaxQuantity(score))
  }

  /** The mode a round is actually played in: a quiz without enough products falls back to shopping. */
  function RoundMode(mode: GameMode, score: int, productCount: nat, d: Draw): GameMode
  {
    match mode
    case CalculationQuiz => if productCount >= 2 then CalculationQuiz else Shopping
    case PriceQuiz => if productCount >= PriceItemCount(score, d.changeKinds) then PriceQuiz else Shopping
    case _ => mode
  }

  /** The draw lies in the ranges the source's random calls produce for this round. */
  predicate DrawOk(mode: GameMode, score: int, productCount: nat, d: Draw)
  {
    (mode == PriceQuiz && IsChangeQuiz(score) ==> 2 <= d.changeKinds <= 3) &&
    match RoundMode(mode, score, productCount, d)
    case Shopping | ListeningQuiz => ShoppingDrawOk(score, productCount, d)
    case CalculationQuiz => CalculationDrawOk(productCount, d)
    case PriceQuiz => PriceDrawOk(score, productCount, d)
  }

  /** The order `generateNewOrder` produces for a draw. */
  function RoundOrder(mode: GameMode, score: int, products: seq<Product>, d: Draw): Order
    requires DrawOk(mode, score, |products|, d)
  {
    match RoundMode(mode, score, |products|, d)
    case Shopping | ListeningQuiz =>
      assert d.kinds <= |products| by { if score >= 2 { assert MaxItemTypes(score, |products|) <= |products|; } }
      Order(ProductLines(products, d.perm, d.quantities, d.kinds))
    case CalculationQuiz =>
      CalculationQuizOrder(products, d.perm, d.quantities).value
    case PriceQuiz =>
      var k := PriceItemCount(score, d.changeKinds);
      Order(ProductLines(products, d.perm, d.quantities, k) + PriceAnswerLines(score, SelectedTotal(products, d.perm, d.quantities, k)))
  }

  /**
   * The dispatch of `generateNewOrder`: the generator of the current mode,
   * or a shopping order and shopping mode when a quiz cannot be built.
   */
  method NewRoundOrder(mode: GameMode, score: int, products: seq<Product>, d: Draw) returns (order: Order, nextMode: GameMode)
    requires DrawOk(mode, score, |products|, d)
    ensures nextMode == RoundMode(mode, score, |products|, d)
    ensures order == RoundOrder(mode, score, products, d)
  {
    nextMode := mode;
    match mode {
      case Shopping | ListeningQuiz =>
        order := ShoppingOrder(score, products, d.perm, d.kinds, d.quantities);
      case CalculationQuiz =>
        var r := CalculationQuizOrder(products, d.perm, d.quantities);
        if r.None? {
          nextMode := Shopping;
          order := ShoppingOrder(score, products, d.perm, d.kinds, d.quantities);
        } else {
          order := r.value;
        }
      case PriceQuiz =>
        var r := PriceQuizOrder(score, products, d.perm, d.changeKinds, d.quantities);
        if r.None? {
          nextMode := Shopping;
          order := ShoppingOrder(score, products, d.perm, d.kinds, d.quantities);
        } else {
          order := r.value;
        }
    }
  }

  /** With one of the shipped six-product tables no quiz ever falls back to shopping. */
  lemma ShippedTablesNeverFallBack(mode: GameMode, score: int, d: Draw)
    requires mode == PriceQuiz && IsChangeQuiz(score) ==> 2 <= d.changeKinds <= 3
    ensures RoundMode(mode, score, 6, d) == mode
  {
  }

  // ---------------------------------------------------------------------
  // Judging
  // ---------------------------------------------------------------------

  /** The first product with the given key (`getProduct(byId:)`). */
  function FindProduct(products: seq<Product>, key: string): (r: Option<Product>)
    ensures r.Some? ==> r.value in products && r.value.key == key
    ensures r.None? <==> forall i :: 0 <= i < |products| ==> products[i].key != key
  {
    if products == [] then None
    else if products[0].key == key then Some(products[0])
    else FindProduct(products[1..], key)
  }

  /** The lookup returns the product at the first position holding the key. */
  lemma {:induction false} FindProductFirst(products: seq<Product>, key: string, i: nat)
    requires i < |products| && products[i].key == key
    requires forall j :: 0 <= j < i ==> products[j].key != key
    ensures FindProduct(products, key) == Some(products[i])
  {
    if i > 0 {
      assert products[0].key != key;
      FindProductFirst(products[1..], key, i - 1);
      assert products[1..][i - 1] == products[i];
    }
  }

  lemma {:induction false} FindProductOfDistinct(products: seq<Product>, i: nat)
    requires DistinctKeys(products)
    requires i < |products|
    ensures FindProduct(products, products[i].key) == Some(products[i])
  {
    if i > 0 {
      assert products[0].key != products[i].key;
      assert DistinctKeys(products[1..]) by {
        forall a, b | 0 <= a < b < |products| - 1 ensures products[1..][a].key != products[1..][b].key {
          assert products[1..][a] == products[a + 1] && products[1..][b] == products[b + 1];
        }
      }
      FindProductOfDistinct(products[1..], i - 1);
      assert products[1..][i - 1] == products[i];
    }
  }

  lemma SentinelNotFound(products: seq<Product>, key: string)
    requires NoSentinelKeys(products)
    requires IsSentinel(key)
    ensures FindProduct(products, key) == None
  {
  }

  /** What one line adds to the judged total: price times quantity, or nothing for an unknown key. */
  function LineTotal(item: OrderItem, products: seq<Product>): int
  {
    match FindProduct(products, item.productKey)
    case Some(product) => product.price * item.quantity
    case None => 0
  }

  /** Left-to-right sum of the line totals (the `reduce(0)` of the price judge and of the checkout). */
  function PriceTotal(items: seq<OrderItem>, products: seq<Product>): int
  {
    if items == [] then 0
    else PriceTotal(items[..|items| - 1], products) + LineTotal(items[|items| - 1], products)
  }

  /** The total splits over concatenation. */
  lemma {:induction false} PriceTotalAppend(a: seq<OrderItem>, b: seq<OrderItem>, products: seq<Product>)
    ensures PriceTotal(a + b, products) == PriceTotal(a, products) + PriceTotal(b, products)
  {
    if b != [] {
      assert (a + b)[..|a + b| - 1] == a + b[..|b| - 1];
      PriceTotalAppend(a, b[..|b| - 1], products);
    } else {
      assert a + b == a;
    }
  }

  /** Lines whose keys name no product add nothing to the total. */
  lemma PriceTotalIgnoresUnknown(items: seq<OrderItem>, extra: seq<OrderItem>, products: seq<Product>)
    requires forall i :: 0 <= i < |extra| ==> FindProduct(products, extra[i].productKey) == None
    ensures PriceTotal(items + extra, products) == PriceTotal(items, products)
  {
    PriceTotalAppend(items, extra, products);
    UnknownLinesTotalZero(extra, products);
  }

  lemma {:induction false} UnknownLinesTotalZero(extra: seq<OrderItem>, products: seq<Product>)
    requires forall i :: 0 <= i < |extra| ==> FindProduct(products, extra[i].productKey) == None
    ensures PriceTotal(extra, products) == 0
  {
    if extra != [] {
      UnknownLinesTotalZero(extra[..|extra| - 1], products);
    }
  }

  /** The expected selection of a shopping order: key to quantity, a later line overwriting an earlier one. */
  function OrderMap(items: seq<OrderItem>): map<string, int>
  {
    if items == [] then map[]
    else OrderMap(items[..|items| - 1])[items[|items| - 1].productKey := items[|items| - 1].quantity]
  }

  function ItemKeys(items: seq<OrderItem>): set<string>
  {
    set i | 0 <= i < |items| :: items[i].productKey
  }

  /** The expected selection has exactly the order's keys. */
  lemma {:induction false} OrderMapKeys(items: seq<OrderItem>)
    ensures OrderMap(items).Keys == ItemKeys(items)
  {
    if items != [] {
      var n := |items| - 1;
      var front := items[..n];
      OrderMapKeys(front);
      forall k | k in ItemKeys(items) ensures k in ItemKeys(front) + {items[n].productKey} {
        var i :| 0 <= i < |items| && items[i].productKey == k;
        if i < n { assert front[i] == items[i]; }
      }
      forall k | k in ItemKeys(front) ensures k in ItemKeys(items) {
        var i :| 0 <= i < |front| && front[i].productKey == k;
        assert items[i] == front[i];
      }
    }
  }

  /** With distinct keys, each line's key is mapped to that line's quantity. */
  lemma {:induction false} OrderMapValues(items: seq<OrderItem>)
    requires DistinctItemKeys(items)
    ensures forall i :: 0 <= i < |items| ==> items[i].productKey in OrderMap(items)
    ensures forall i :: 0 <= i < |items| ==> OrderMap(items)[items[i].productKey] == items[i].quantity
  {
    if items != [] {
      var n := |items| - 1;
      var front := items[..n];
      assert DistinctItemKeys(front);
      OrderMapValues(front);
      forall i | 0 <= i < n
        ensures items[i].productKey in OrderMap(items)
        ensures OrderMap(items)[items[i].productKey] == items[i].quantity
      {
        assert items[i] == front[i];
        assert items[i].productKey != items[n].productKey;
      }
    }
  }

  /** The expected selection has exactly the order's keys, each mapped to its line's quantity. */
  lemma OrderMapContents(items: seq<OrderItem>)
    requires DistinctItemKeys(items)
    ensures OrderMap(items).Keys == ItemKeys(items)
    ensures forall i :: 0 <= i < |items| ==> OrderMap(items)[items[i].productKey] == items[i].quantity
  {
    OrderMapKeys(items);
    OrderMapValues(items);
  }

  /** With distinct keys, no key is on two lines, so each line is counted once by the multiset. */
  lemma {:induction false} DistinctItemsOccurOnce(items: seq<OrderItem>, x: OrderItem)
    requires DistinctItemKeys(items)
    ensures multiset(items)[x] <= 1
  {
    if items != [] {
      var n := |items| - 1;
      assert items == items[..n] + [items[n]];
      assert DistinctItemKeys(items[..n]);
      DistinctItemsOccurOnce(items[..n], x);
      if x == items[n] {
        assert x !in items[..n] by {
          forall i | 0 <= i < n ensures items[..n][i] != x {
            assert items[..n][i].productKey == items[i].productKey != items[n].productKey;
          }
        }
      }
    }
  }

  /** Reordering lines keeps keys distinct. */
  lemma PermutedItemsDistinct(a: seq<OrderItem>, b: seq<OrderItem>)
    requires multiset(a) == multiset(b)
    requires DistinctItemKeys(a)
    ensures DistinctItemKeys(b)
  {
    forall i, j | 0 <= i < j < |b| ensures b[i].productKey != b[j].productKey {
      if b[i] == b[j] {
        assert b == b[..j] + b[j..];
        assert b[i] in multiset(b[..j]) && b[j] in multiset(b[j..]);
        assert multiset(b)[b[i]] >= 2;
        DistinctItemsOccurOnce(a, b[i]);
      } else {
        assert b[i] in multiset(a) && b[j] in multiset(a);
        var p :| 0 <= p < |a| && a[p] == b[i];
        var q :| 0 <= q < |a| && a[q] == b[j];
        if p < q {
        } else {
          assert q < p;
        }
      }
    }
  }

  /** A line of `a` sits somewhere in any reordering `b` of it. */
  lemma FindInPermuted(a: seq<OrderItem>, b: seq<OrderItem>, i: nat) returns (j: nat)
    requires multiset(a) == multiset(b)
    requires i < |a|
    ensures j < |b| && b[j] == a[i]
  {
    assert a[i] in multiset(b);
    j :| 0 <= j < |b| && b[j] == a[i];
  }

  /** Reordering lines keeps the set of keys. */
  lemma PermutedItemKeys(a: seq<OrderItem>, b: seq<OrderItem>)
    requires multiset(a) == multiset(b)
    ensures ItemKeys(a) == ItemKeys(b)
  {
    forall k | k in ItemKeys(a) ensures k in ItemKeys(b) {
      var i :| 0 <= i < |a| && a[i].productKey == k;
      var j := FindInPermuted(a, b, i);
    }
    forall k | k in ItemKeys(b) ensures k in ItemKeys(a) {
      var i :| 0 <= i < |b| && b[i].productKey == k;
      var j := FindInPermuted(b, a, i);
    }
  }

  /** The expected selection does not depend on the order of the lines. */
  lemma OrderMapPermutation(a: seq<OrderItem>, b: seq<OrderItem>)
    requires multiset(a) == multiset(b)
    requires DistinctItemKeys(a)
    ensures OrderMap(a) == OrderMap(b)
  {
    PermutedItemsDistinct(a, b);
    OrderMapContents(a);
    OrderMapContents(b);
    PermutedItemKeys(a, b);
    forall k | k in OrderMap(a) ensures OrderMap(a)[k] == OrderMap(b)[k] {
      var i :| 0 <= i < |a| && a[i].productKey == k;
      var j := FindInPermuted(a, b, i);
    }
  }

  predicate IsDigit(c: char)
  {
    '0' <= c <= '9'
  }

  predicate IsDigits(s: string)
  {
    forall i :: 0 <= i < |s| ==> IsDigit(s[i])
  }

  /** Decimal value of a string of digits. */
  function DigitsValue(s: string): (value: nat)
    requires IsDigits(s)
  {
    if s == [] then 0
    else DigitsValue(s[..|s| - 1]) * 10 + (s[|s| - 1] as int - '0' as int)
  }

  /**
   * Swift's `Int(_: String)` for decimal text: an optional sign followed by
   * at least one digit; anything else is nil. Overflow is not modelled.
   */
  function ParseInt(s: string): (r: Option<int>)
    ensures s == [] ==> r == None
    ensures IsDigits(s) && s != [] ==> r == Some(DigitsValue(s))
  {
    if s == [] then None
    else if (s[0] == '+' || s[0] == '-') && |s| > 1 && IsDigits(s[1..]) then
      var magnitude: int := DigitsValue(s[1..]);
      Some(if s[0] == '-' then -magnitude else magnitude)
    else if IsDigits(s) then Some(DigitsValue(s))
    else None
  }

  /** The first line with the given key (`first(where:)`). */
  function FirstItemWithKey(items: seq<OrderItem>, key: string): (r: Option<OrderItem>)
    ensures r.Some? ==> r.value in items && r.value.productKey == key
    ensures r.None? <==> forall i :: 0 <= i < |items| ==> items[i].productKey != key
  {
    if items == [] then None
    else if items[0].productKey == key then Some(items[0])
    else FirstItemWithKey(items[1..], key)
  }

  /** The search returns the line at the first position holding the key. */
  lemma {:induction false} FirstItemWithKeyFirst(items: seq<OrderItem>, key: string, i: nat)
    requires i < |items| && items[i].productKey == key
    requires forall j :: 0 <= j < i ==> items[j].productKey != key
    ensures FirstItemWithKey(items, key) == Some(items[i])
  {
    if i > 0 {
      assert items[0].productKey != key;
      FirstItemWithKeyFirst(items[1..], key, i - 1);
      assert items[1..][i - 1] == items[i];
    }
  }

  /** The judgement of `submitUserSelection` for the current mode. */
  function IsCorrectSubmission(mode: GameMode, order: Order, selection: map<string, int>,
                               calculationInput: string, priceInput: string, products: seq<Product>): bool
  {
    match mode
    case Shopping | ListeningQuiz => selection == OrderMap(order.items)
    case CalculationQuiz =>
      (match (ParseInt(calculationInput), FirstItemWithKey(order.items, TotalQuantityAnswerKey))
       case (Some(answer), Some(item)) => answer == item.quantity
       case _ => false)
    case PriceQuiz =>
      (match ParseInt(priceInput)
       case Some(answer) => answer == PriceTotal(order.items, products)
       case None => false)
  }

  /** A shopping or listening answer is right exactly when every ordered key was picked the ordered number of times and nothing else was picked. */
  lemma ShoppingJudgeExact(mode: GameMode, order: Order, selection: map<string, int>,
                           calculationInput: string, priceInput: string, products: seq<Product>)
    requires mode == Shopping || mode == ListeningQuiz
    requires DistinctItemKeys(order.items)
    ensures IsCorrectSubmission(mode, order, selection, calculationInput, priceInput, products) <==>
      selection.Keys == ItemKeys(order.items) &&
      forall i :: 0 <= i < |order.items| ==> selection[order.items[i].productKey] == order.items[i].quantity
  {
    OrderMapContents(order.items);
    if selection.Keys == ItemKeys(order.items) &&
       forall i :: 0 <= i < |order.items| ==> selection[order.items[i].productKey] == order.items[i].quantity
    {
      forall k | k in selection ensures selection[k] == OrderMap(order.items)[k] {
        var i :| 0 <= i < |order.items| && order.items[i].productKey == k;
      }
    }
  }

  /** The shopping judgement ignores the order in which the lines were listed. */
  lemma ShoppingJudgeIgnoresLineOrder(mode: GameMode, a: Order, b: Order, selection: map<string, int>,
                                      calculationInput: string, priceInput: string, products: seq<Product>)
    requires mode == Shopping || mode == ListeningQuiz
    requires multiset(a.items) == multiset(b.items)
    requires DistinctItemKeys(a.items)
    ensures IsCorrectSubmission(mode, a, selection, calculationInput, priceInput, products) ==
            IsCorrectSubmission(mode, b, selection, calculationInput, priceInput, products)
  {
    OrderMapPermutation(a.items, b.items);
  }

  /** A calculation quiz accepts exactly the typed sum of the two displayed quantities. */
  lemma CalculationJudgeAcceptsSum(products: seq<Product>, perm: seq<nat>, quantities: seq<int>,
                                   selection: map<string, int>, calculationInput: string, priceInput: string)
    requires IsPermutation(perm, |products|)
    requires |products| >= 2 && |quantities| == 2 && QuantitiesWithin(quantities, 3)
    requires NoSentinelKeys(products)
    ensures CalculationQuizOrder(products, perm, quantities).Some?
    ensures IsCorrectSubmission(CalculationQuiz, CalculationQuizOrder(products, perm, quantities).value,
                                selection, calculationInput, priceInput, products)
            <==> ParseInt(calculationInput) == Some(quantities[0] + quantities[1])
  {
    var order := CalculationQuizOrder(products, perm, quantities).value;
    assert !IsSentinel(products[perm[0]].key) && !IsSentinel(products[perm[1]].key);
    assert FirstItemWithKey(order.items, TotalQuantityAnswerKey) == Some(order.items[2]);
  }

  // ---------------------------------------------------------------------
  // What the judge accepts in a price round
  // ---------------------------------------------------------------------

  /** The judged total of the product lines of a draw is the total the generator computed. */
  lemma {:induction false} ProductLinesTotal(products: seq<Product>, perm: seq<nat>, quantities: seq<int>, k: nat)
    requires IsPermutation(perm, |products|) && DistinctKeys(products)
    requires k <= |products| && k <= |quantities|
    ensures PriceTotal(ProductLines(products, perm, quantities, k), products) == SelectedTotal(products, perm, quantities, k)
  {
    if k > 0 {
      var lines := ProductLines(products, perm, quantities, k);
      var last := lines[k - 1];
      assert lines[..k - 1] == ProductLines(products, perm, quantities, k - 1);
      ProductLinesTotal(products, perm, quantities, k - 1);
      FindProductOfDistinct(products, perm[k - 1]);
      assert LineTotal(last, products) == products[perm[k - 1]].price * quantities[k - 1];
    }
  }

  /**
   * In a price round the judge accepts exactly the typed total of the drawn
   * products — in a change round too, although its last line holds the change.
   */
  lemma PriceRoundAcceptsTotal(score: int, products: seq<Product>, d: Draw, selection: map<string, int>,
                               calculationInput: string, priceInput: string)
    requires DrawOk(PriceQuiz, score, |products|, d)
    requires RoundMode(PriceQuiz, score, |products|, d) == PriceQuiz
    requires DistinctKeys(products) && NoSentinelKeys(products)
    ensures var total := SelectedTotal(products, d.perm, d.quantities, PriceItemCount(score, d.changeKinds));
            IsCorrectSubmission(PriceQuiz, RoundOrder(PriceQuiz, score, products, d), selection, calculationInput, priceInput, products)
            <==> ParseInt(priceInput) == Some(total)
  {
    var k := PriceItemCount(score, d.changeKinds);
    var total := SelectedTotal(products, d.perm, d.quantities, k);
    var lines := ProductLines(products, d.perm, d.quantities, k);
    var answers := PriceAnswerLines(score, total);
    ProductLinesTotal(products, d.perm, d.quantities, k);
    SentinelNotFound(products, PriceAnswerKey);
    SentinelNotFound(products, PaymentAmountKey);
    SentinelNotFound(products, ChangeAnswerKey);
    PriceTotalIgnoresUnknown(lines, answers, products);
  }

  /**
   * A change round ends with the change due, yet typing that change is
   * rejected whenever the total is above 100 yen and not exactly 500 yen.
   */
  lemma ChangeRoundRejectsChange(score: int, products: seq<Product>, d: Draw, selection: map<string, int>,
                                 calculationInput: string, priceInput: string)
    requires IsChangeQuiz(score)
    requires DrawOk(PriceQuiz, score, |products|, d)
    requires RoundMode(PriceQuiz, score, |products|, d) == PriceQuiz
    requires DistinctKeys(products) && NoSentinelKeys(products)
    ensures var order := RoundOrder(PriceQuiz, score, products, d);
            var total := SelectedTotal(products, d.perm, d.quantities, PriceItemCount(score, d.changeKinds));
            var change := PaymentFor(total) - total;
            order.items[|order.items| - 1] == OrderItem(ChangeAnswerKey, change) &&
            change > 0 &&
            (total > 100 && total != 500 && ParseInt(priceInput) == Some(change) ==>
              !IsCorrectSubmission(PriceQuiz, order, selection, calculationInput, priceInput, products))
  {
    PriceRoundAcceptsTotal(score, products, d, selection, calculationInput, priceInput);
    PaymentForBounds(SelectedTotal(products, d.perm, d.quantities, PriceItemCount(score, d.changeKinds)));
  }

  // ---------------------------------------------------------------------
  // Answers typed on the number pad
  // ---------------------------------------------------------------------

  /** The number pad appends digits only, and stops at three characters. */
  const KeypadMaxDigits: nat := 3

  predicate TypedAnswer(s: string)
  {
    |s| <= KeypadMaxDigits && IsDigits(s)
  }

  function Pow10(n: nat): (p: nat)
    ensures p >= 1
  {
    if n == 0 then 1 else 10 * Pow10(n - 1)
  }

  lemma {:induction false} DigitsValueBelow(s: string)
    requires IsDigits(s)
    ensures DigitsValue(s) < Pow10(|s|)
  {
    if s != [] {
      DigitsValueBelow(s[..|s| - 1]);
    }
  }

  /** Whatever the pad lets a player type reads as a number from 0 to 999, or as nothing at all. */
  lemma TypedAnswerBound(s: string)
    requires TypedAnswer(s)
    ensures s == [] ==> ParseInt(s) == None
    ensures s != [] ==> ParseInt(s).Some? && 0 <= ParseInt(s).value <= 999
  {
    if s != [] {
      DigitsValueBelow(s);
      assert Pow10(|s|) <= 1000 by {
        assert Pow10(3) == 1000;
        if |s| < 3 { assert Pow10(|s|) <= 100; }
      }
    }
  }

  /** Any two different restaurant dishes cost at least 1000 yen together. */
  lemma RestaurantPairCost(i: nat, j: nat)
    requires i < 6 && j < 6 && i != j
    ensures RestaurantProducts[i].price + RestaurantProducts[j].price >= 1000
  {
  }

  /** With positive prices and quantities, a selected total is at least the price of each of its first two products. */
  lemma {:induction false} SelectedTotalGrows(products: seq<Product>, perm: seq<nat>, quantities: seq<int>, k: nat)
    requires IsPermutation(perm, |products|) && WellPriced(products)
    requires k <= |products| && k <= |quantities|
    requires forall i :: 0 <= i < k ==> quantities[i] >= 1
    ensures SelectedTotal(products, perm, quantities, k) >= 0
    ensures k >= 2 ==> SelectedTotal(products, perm, quantities, k) >= products[perm[0]].price + products[perm[1]].price
  {
    if k > 0 {
      SelectedTotalGrows(products, perm, quantities, k - 1);
      ScaledPriceAtLeast(products[perm[k - 1]].price, quantities[k - 1]);
      if k == 2 {
        ScaledPriceAtLeast(products[perm[0]].price, quantities[0]);
      }
    }
  }

  lemma ScaledPriceAtLeast(price: int, quantity: int)
    requires price > 0 && quantity >= 1
    ensures price * quantity >= price
  {
  }

  /** A shuffled restaurant menu is still well formed. */
  lemma ShuffledRestaurantWellFormed(shuffle: seq<nat>)
    requires IsPermutation(shuffle, 6)
    ensures var products := Permute(RestaurantProducts, shuffle);
      DistinctKeys(products) && WellPriced(products) && NoSentinelKeys(products)
  {
    RestaurantTableWellFormed();
    ShippedTablesHaveNoSentinels(Restaurant);
    PermutePreserves(RestaurantProducts, shuffle);
  }

  /** Any two dishes of a shuffled restaurant menu cost 1000 yen or more together. */
  lemma ShuffledRestaurantPairCost(shuffle: seq<nat>, i: nat, j: nat)
    requires IsPermutation(shuffle, 6)
    requires i < 6 && j < 6 && i != j
    ensures Permute(RestaurantProducts, shuffle)[i].price + Permute(RestaurantProducts, shuffle)[j].price >= 1000
  {
    RestaurantPairCost(shuffle[i], shuffle[j]);
  }

  /**
   * In the restaurant every price round totals 1000 yen or more, so no answer
   * of at most three digits is ever accepted, whatever order the shuffle put
   * the dishes in.
   */
  lemma RestaurantPriceRoundUnanswerable(score: int, shuffle: seq<nat>, d: Draw, selection: map<string, int>,
                                         calculationInput: string, priceInput: string)
    requires IsPermutation(shuffle, 6)
    requires DrawOk(PriceQuiz, score, 6, d)
    requires TypedAnswer(priceInput)
    ensures RoundMode(PriceQuiz, score, 6, d) == PriceQuiz
    ensures var products := Permute(RestaurantProducts, shuffle);
      !IsCorrectSubmission(PriceQuiz, RoundOrder(PriceQuiz, score, products, d),
                           selection, calculationInput, priceInput, products)
  {
    var products := Permute(RestaurantProducts, shuffle);
    ShuffledRestaurantWellFormed(shuffle);
    var k := PriceItemCount(score, d.changeKinds);
    PriceRoundAcceptsTotal(score, products, d, selection, calculationInput, priceInput);
    SelectedTotalGrows(products, d.perm, d.quantities, k);
    ShuffledRestaurantPairCost(shuffle, d.perm[0], d.perm[1]);
    TypedAnswerBound(priceInput);
  }
}
