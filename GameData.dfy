/**
 * The game's static data: the product record, order records, the shop kinds
 * with their names, and the four shipped product tables.
 */
module GameData {

  /** One product a shop sells; prices are whole yen. The Swift struct's UUID is not modelled. */
  datatype Product = Product(
    key: string,
    nameJA: string,
    nameEN: string,
    imageName: string,
    colorKey: string,
    price: int)

  /** One line of an order: a product key (or an answer sentinel) and a quantity. */
  datatype OrderItem = OrderItem(productKey: string, quantity: int)

  /** The customer's request, or the question of a quiz round. */
  datatype Order = Order(items: seq<OrderItem>)

  datatype ShopType = FruitStand | Bakery | CakeShop | Restaurant

  /** The enum's raw value, which is also its Japanese name. */
  function RawValue(shop: ShopType): string
  {
    match shop
    case FruitStand => "くだものや"
    case Bakery => "パンや"
    case CakeShop => "ケーキや"
    case Restaurant => "レストラン"
  }

  function NameJA(shop: ShopType): string
  {
    RawValue(shop)
  }

  function NameEN(shop: ShopType): string
  {
    match shop
    case FruitStand => "Fruit Stand"
    case Bakery => "Bakery"
    case CakeShop => "Cake Shop"
    case Restaurant => "Restaurant"
  }

  /** The label shown for a shop: Japanese for "ja", English for every other language code. */
  function LocalizedName(shop: ShopType, language: string): (name: string)
    ensures language == "ja" ==> name == RawValue(shop)
    ensures language != "ja" ==> name == NameEN(shop)
  {
    if language == "ja" then NameJA(shop) else NameEN(shop)
  }

  /** Two different shops never share a label, in either language. */
  lemma LocalizedNamesDistinct(a: ShopType, b: ShopType, language: string)
    requires a != b
    ensures LocalizedName(a, language) != LocalizedName(b, language)
  {
    if language == "ja" {
      assert |RawValue(a)| != |RawValue(b)| || RawValue(a)[0] != RawValue(b)[0];
    } else {
      assert |NameEN(a)| != |NameEN(b)|;
    }
  }

  // --- The shipped product tables ---

  const FruitProducts: seq<Product> := [
    Product("apple", "りんご", "Apple", "apple", "red", 100),
    Product("banana", "バナナ", "Banana", "banana", "yellow", 150),
    Product("orange", "オレンジ", "Orange", "orange", "orange", 120),
    Product("grape", "ぶどう", "Grape", "grape", "purple", 300),
    Product("peach", "もも", "Peach", "peach", "pink", 500),
    Product("strawberry", "いちご", "Strawberry", "strawberry", "red", 250)
  ]

  const BakeryProducts: seq<Product> := [
    Product("bread", "しょくパン", "White Bread", "bread", "white", 200),
    Product("melonpan", "メロンパン", "Melon Bread", "melonpan", "green", 180),
    Product("currypan", "カレーパン", "Curry Bread", "currypan", "brown", 220),
    Product("croissant", "クロワッサン", "Croissant", "croissant", "brown", 150),
    Product("sandwich", "サンドイッチ", "Sandwich", "sandwich", "white", 350),
    Product("donut", "ドーナツ", "Donut", "donut", "brown", 160)
  ]

  const CakeProducts: seq<Product> := [
    Product("shortcake", "ショートケーキ", "Shortcake", "shortcake", "white", 450),
    Product("chocolatecake", "チョコケーキ", "Chocolate Cake", "chocolate_cake", "brown", 480),
    Product("cheesecake", "チーズケーキ", "Cheesecake", "cheesecake", "yellow", 420),
    Product("montblanc", "モンブラン", "Mont Blanc", "mont_blanc", "brown", 500),
    Product("roll_cake", "ロールケーキ", "Roll Cake", "roll_cake", "white", 380),
    Product("pudding", "タルト", "tart", "tart", "yellow", 300)
  ]

  const RestaurantProducts: seq<Product> := [
    Product("hamburg_steak", "ハンバーグ", "Hamburg Steak", "hamburg_steak", "brown", 850),
    Product("gyoza", "ギョーザ", "Gyoza", "gyoza", "white", 450),
    Product("hamburger", "ハンバーガー", "Hamburger", "hamburger", "brown", 600),
    Product("curry", "カレーライス", "Curry Rice", "curry", "brown", 700),
    Product("beer", "ビール", "Beer", "beer", "yellow", 550),
    Product("wine", "ワイン", "Wine", "wine", "red", 650)
  ]

  /** The table a shop loads before shuffling. */
  function ProductsFor(shop: ShopType): seq<Product>
  {
    match shop
    case FruitStand => FruitProducts
    case Bakery => BakeryProducts
    case CakeShop => CakeProducts
    case Restaurant => RestaurantProducts
  }

  predicate DistinctKeys(products: seq<Product>)
  {
    forall i, j :: 0 <= i < j < |products| ==> products[i].key != products[j].key
  }

  /** Every price is a positive whole number of ten-yen steps. */
  predicate WellPriced(products: seq<Product>)
  {
    forall i :: 0 <= i < |products| ==> products[i].price > 0 && products[i].price % 10 == 0
  }

  /** Every shipped table has six products with pairwise distinct keys and sensible prices. */
  lemma ShippedTablesWellFormed(shop: ShopType)
    ensures |ProductsFor(shop)| == 6
    ensures DistinctKeys(ProductsFor(shop))
    ensures WellPriced(ProductsFor(shop))
  {
    match shop
    case FruitStand => FruitTableWellFormed();
    case Bakery => BakeryTableWellFormed();
    case CakeShop => CakeTableWellFormed();
    case Restaurant => RestaurantTableWellFormed();
  }

  lemma FruitTableWellFormed()
    ensures |FruitProducts| == 6 && DistinctKeys(FruitProducts) && WellPriced(FruitProducts)
  {
  }

  lemma BakeryTableWellFormed()
    ensures |BakeryProducts| == 6 && DistinctKeys(BakeryProducts) && WellPriced(BakeryProducts)
  {
  }

  lemma CakeTableWellFormed()
    ensures |CakeProducts| == 6 && DistinctKeys(CakeProducts) && WellPriced(CakeProducts)
  {
  }

  lemma RestaurantTableWellFormed()
    ensures |RestaurantProducts| == 6 && DistinctKeys(RestaurantProducts) && WellPriced(RestaurantProducts)
  {
  }

  // --- Shuffling, as an explicit permutation of indices ---

  /** `perm` lists each index below `n` exactly once. */
  predicate IsPermutation(perm: seq<nat>, n: nat)
  {
    |perm| == n &&
    (forall i :: 0 <= i < n ==> perm[i] < n) &&
    (forall i, j :: 0 <= i < j < n ==> perm[i] != perm[j])
  }

  /** `products` reordered by `perm` (Swift's `shuffled()` with its random choice made explicit). */
  function Permute(products: seq<Product>, perm: seq<nat>): (shuffled: seq<Product>)
    requires IsPermutation(perm, |products|)
    ensures |shuffled| == |products|
  {
    seq(|perm|, i requires 0 <= i < |perm| => products[perm[i]])
  }

  /** A shuffle keeps keys distinct, draws only products from the table and keeps prices well formed. */
  lemma PermutePreserves(products: seq<Product>, perm: seq<nat>)
    requires IsPermutation(perm, |products|)
    ensures forall i :: 0 <= i < |products| ==> Permute(products, perm)[i] in products
    ensures DistinctKeys(products) ==> DistinctKeys(Permute(products, perm))
    ensures WellPriced(products) ==> WellPriced(Permute(products, perm))
  {
    var shuffled := Permute(products, perm);
    forall i | 0 <= i < |products| ensures shuffled[i] in products {
      assert shuffled[i] == products[perm[i]];
    }
    if DistinctKeys(products) {
      forall i, j | 0 <= i < j < |products| ensures shuffled[i].key != shuffled[j].key {
        assert shuffled[i] == products[perm[i]] && shuffled[j] == products[perm[j]];
        if perm[i] < perm[j] {
        } else {
          assert perm[j] < perm[i];
        }
      }
    }
  }

  /** A shuffle loses no product: every product of the table appears in the shuffled list. */
  lemma PermuteKeepsEveryProduct(products: seq<Product>, perm: seq<nat>)
    requires IsPermutation(perm, |products|)
    ensures forall i :: 0 <= i < |products| ==> products[i] in Permute(products, perm)
  {
    PermuteMultiset(products, perm);
    forall i | 0 <= i < |products| ensures products[i] in Permute(products, perm) {
      assert products[i] in multiset(products);
    }
  }

  /** A subset is no larger than its superset. */
  lemma SubsetNoLarger<T>(a: set<T>, b: set<T>)
    requires a <= b
    ensures |a| <= |b|
  {
    assert b == a + (b - a);
  }

  /** The indices below `n`. */
  function IndicesBelow(n: nat): (s: set<nat>)
    ensures forall v :: v in s <==> 0 <= v < n
    ensures |s| == n
  {
    if n == 0 then {} else IndicesBelow(n - 1) + {n - 1}
  }

  /** The first `k` entries of a permutation are `k` different indices. */
  lemma {:induction false} PermutationPrefixImage(perm: seq<nat>, n: nat, k: nat)
    requires IsPermutation(perm, n) && k <= n
    ensures |set i | 0 <= i < k :: perm[i]| == k
  {
    if k > 0 {
      PermutationPrefixImage(perm, n, k - 1);
      var before := set i | 0 <= i < k - 1 :: perm[i];
      assert (set i | 0 <= i < k :: perm[i]) == before + {perm[k - 1]};
      assert perm[k - 1] !in before;
    }
  }

  /** Every index below `n` occurs in a permutation of `n`. */
  lemma PermutationHits(perm: seq<nat>, n: nat, v: nat) returns (i: nat)
    requires IsPermutation(perm, n) && v < n
    ensures i < n && perm[i] == v
  {
    var image := set i | 0 <= i < n :: perm[i];
    var below := IndicesBelow(n);
    PermutationPrefixImage(perm, n, n);
    if v !in image {
      assert image <= below - {v};
      SubsetNoLarger(image, below - {v});
      assert false;
    }
    i :| 0 <= i < n && perm[i] == v;
  }

  /** Dropping the entry `n - 1` from a permutation of `n` leaves a permutation of `n - 1`. */
  lemma PermutationDrop(perm: seq<nat>, n: nat, j: nat) returns (rest: seq<nat>)
    requires IsPermutation(perm, n) && j < n && perm[j] == n - 1
    ensures rest == perm[..j] + perm[j + 1..]
    ensures IsPermutation(rest, n - 1)
  {
    rest := perm[..j] + perm[j + 1..];
    assert forall i :: 0 <= i < n - 1 ==> rest[i] == if i < j then perm[i] else perm[i + 1];
  }

  /** Shuffling the table without its last product by the dropped permutation is the shuffle without position `j`. */
  lemma PermuteDrop(products: seq<Product>, perm: seq<nat>, j: nat, rest: seq<nat>)
    requires IsPermutation(perm, |products|) && j < |products| && perm[j] == |products| - 1
    requires rest == perm[..j] + perm[j + 1..] && IsPermutation(rest, |products| - 1)
    ensures Permute(products[..|products| - 1], rest) == Permute(products, perm)[..j] + Permute(products, perm)[j + 1..]
  {
    var shuffled := Permute(products, perm);
    assert forall i :: 0 <= i < |rest| ==> rest[i] == if i < j then perm[i] else perm[i + 1];
  }

  /** A shuffle is a reordering: it holds every product of the table as often as the table does. */
  lemma {:induction false} PermuteMultiset(products: seq<Product>, perm: seq<nat>)
    requires IsPermutation(perm, |products|)
    ensures multiset(Permute(products, perm)) == multiset(products)
    decreases |products|
  {
    var n := |products|;
    if n > 0 {
      var j := PermutationHits(perm, n, n - 1);
      var rest := PermutationDrop(perm, n, j);
      var init := products[..n - 1];
      PermuteMultiset(init, rest);
      PermuteDrop(products, perm, j, rest);
      var shuffled := Permute(products, perm);
      assert shuffled[j] == products[n - 1];
      assert shuffled == shuffled[..j] + [shuffled[j]] + shuffled[j + 1..];
      assert products == init + [products[n - 1]];
      calc {
        multiset(shuffled);
        multiset(shuffled[..j] + [shuffled[j]] + shuffled[j + 1..]);
        multiset(shuffled[..j] + shuffled[j + 1..]) + multiset{products[n - 1]};
        multiset(init) + multiset{products[n - 1]};
        multiset(products);
      }
    }
  }
}
