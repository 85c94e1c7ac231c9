/**
 * The cart reconciler of src/components/Cart.js: the join of the server's thin
 * cart (`{productId, qty}` entries) against the product catalog, and the two
 * cart totals shown under the cart.
 *
 * Catalog products are JavaScript objects shared by reference between the
 * catalog, the search results and the derived cart, and the join writes `qty`
 * onto them. They are therefore modelled as objects: every catalog field is a
 * constant and `qty` is the one mutable field.
 */
module Cart {
  import opened Common

  /** A catalog product (`_id`, name, category, cost, rating, image). */
  class Product {
    const id: string
    const name: string
    const category: string
    const cost: int
    const rating: int
    const image: string
    /** The `qty` property that the cart join writes onto the object.
        0 stands for a product that no join has touched yet. */
    var qty: int

    constructor (id: string, name: string, category: string, cost: int, rating: int, image: string)
      ensures this.id == id && this.name == name && this.category == category
      ensures this.cost == cost && this.rating == rating && this.image == image
      ensures qty == 0
    {
      this.id, this.name, this.category := id, name, category;
      this.cost, this.rating, this.image := cost, rating, image;
      qty := 0;
    }
  }

  /** One entry of the server's cart. */
  datatype CartEntry = CartEntry(productId: string, qty: int)

  /** Why the join throws: `temp` is undefined for this entry, so `temp.qty = ...`
      raises a TypeError. `index` is the position of the entry in the cart. */
  datatype JoinError = ProductNotFound(index: nat, productId: string)

  /** `const [temp] = productsData.filter(prod => prod._id == id)`: the first
      catalog object carrying this identifier, or None (`undefined`). */
  function FirstMatch(catalog: seq<Product>, id: string): (r: Option<Product>)
    ensures r.Some? ==> r.value in catalog && r.value.id == id
  {
    if catalog == [] then None
    else if catalog[0].id == id then Some(catalog[0])
    else FirstMatch(catalog[1..], id)
  }

  /** The filter comes back empty exactly when no catalog object has the identifier. */
  lemma {:induction false} FirstMatchNone(catalog: seq<Product>, id: string)
    ensures FirstMatch(catalog, id).None? <==> forall p :: p in catalog ==> p.id != id
  {
    if catalog != [] && catalog[0].id != id {
      FirstMatchNone(catalog[1..], id);
      assert catalog == [catalog[0]] + catalog[1..];
    }
  }

  /** The object FirstMatch finds is the catalog's first object with that identifier. */
  lemma {:induction false} FirstMatchIsFirst(catalog: seq<Product>, id: string, j: nat)
    requires j < |catalog| && catalog[j].id == id
    requires forall k :: 0 <= k < j ==> catalog[k].id != id
    ensures FirstMatch(catalog, id) == Some(catalog[j])
  {
    if j > 0 {
      assert forall k :: 0 <= k < j - 1 ==> catalog[1..][k] == catalog[k + 1];
      FirstMatchIsFirst(catalog[1..], id, j - 1);
    }
  }

  /** The quantity of the LAST entry with this identifier, or None when no entry has it. */
  function LastQty(entries: seq<CartEntry>, id: string): (r: Option<int>)
  {
    if entries == [] then None
    else if entries[|entries| - 1].productId == id then Some(entries[|entries| - 1].qty)
    else LastQty(entries[..|entries| - 1], id)
  }

  /** LastQty finds the quantity of the entry after which no entry names the same product. */
  lemma {:induction false} LastQtyIsLast(entries: seq<CartEntry>, j: nat)
    requires j < |entries|
    requires forall k :: j < k < |entries| ==> entries[k].productId != entries[j].productId
    ensures LastQty(entries, entries[j].productId) == Some(entries[j].qty)
  {
    if j < |entries| - 1 {
      var front := entries[..|entries| - 1];
      assert forall k :: j < k < |front| ==> front[k] == entries[k];
      LastQtyIsLast(front, j);
    }
  }

  /** Some entry names `entries[i]`'s product, so LastQty finds a quantity. */
  lemma {:induction false} LastQtySome(entries: seq<CartEntry>, i: nat)
    requires i < |entries|
    ensures LastQty(entries, entries[i].productId).Some?
  {
    if i < |entries| - 1 && entries[|entries| - 1].productId != entries[i].productId {
      LastQtySome(entries[..|entries| - 1], i);
    }
  }

  /** LastQty finds nothing exactly when no entry names the identifier. */
  lemma {:induction false} LastQtyNone(entries: seq<CartEntry>, id: string)
    ensures LastQty(entries, id).None? <==> forall i :: 0 <= i < |entries| ==> entries[i].productId != id
  {
    if entries != [] {
      var front := entries[..|entries| - 1];
      assert forall i :: 0 <= i < |front| ==> front[i] == entries[i];
      LastQtyNone(front, id);
    }
  }

  /** Every cart entry names a product of the catalog. */
  predicate AllMatched(cartData: seq<CartEntry>, catalog: seq<Product>)
  {
    forall i :: 0 <= i < |cartData| ==> FirstMatch(catalog, cartData[i].productId).Some?
  }

  /** The position at which the join throws: the first entry without a
      catalog product, or `|cartData|` when there is none. */
  function FirstUnmatched(cartData: seq<CartEntry>, catalog: seq<Product>): (k: nat)
    ensures k <= |cartData|
  {
    if cartData == [] then 0
    else if FirstMatch(catalog, cartData[0].productId).None? then 0
    else 1 + FirstUnmatched(cartData[1..], catalog)
  }

  /** FirstUnmatched is the index of the first entry without a product. */
  lemma {:induction false} FirstUnmatchedAt(cartData: seq<CartEntry>, catalog: seq<Product>, i: nat)
    requires i <= |cartData|
    requires forall j :: 0 <= j < i ==> FirstMatch(catalog, cartData[j].productId).Some?
    requires i < |cartData| ==> FirstMatch(catalog, cartData[i].productId).None?
    ensures FirstUnmatched(cartData, catalog) == i
  {
    if i > 0 {
      assert forall j :: 0 <= j < i - 1 ==> cartData[1..][j] == cartData[j + 1];
      FirstUnmatchedAt(cartData[1..], catalog, i - 1);
    }
  }

  /** The cart a successful join returns: for each entry, in cart order, the
      first catalog object with its identifier (the object itself, not a copy). */
  function JoinedCart(cartData: seq<CartEntry>, catalog: seq<Product>): (r: seq<Product>)
    requires AllMatched(cartData, catalog)
    ensures |r| == |cartData|
    ensures forall i :: 0 <= i < |cartData| ==> FirstMatch(catalog, cartData[i].productId) == Some(r[i])
  {
    seq(|cartData|, i requires 0 <= i < |cartData| => FirstMatch(catalog, cartData[i].productId).value)
  }

  /** The joined cart holds catalog objects carrying their entries' identifiers,
      and entries naming the same product share one object. */
  lemma JoinedCartSlots(cartData: seq<CartEntry>, catalog: seq<Product>)
    requires AllMatched(cartData, catalog)
    ensures forall i :: 0 <= i < |cartData| ==>
      JoinedCart(cartData, catalog)[i] in catalog && JoinedCart(cartData, catalog)[i].id == cartData[i].productId
    ensures forall i, j :: 0 <= i < j < |cartData| && cartData[i].productId == cartData[j].productId ==>
      JoinedCart(cartData, catalog)[i] == JoinedCart(cartData, catalog)[j]
  {
  }

  /** The `qty` of catalog object `p` once the entries `applied` have been
      written: the last of them naming `p`'s identifier wins, provided `p` is the
      object the filter finds first for that identifier; otherwise `before`. */
  function QtyAfterJoin(applied: seq<CartEntry>, catalog: seq<Product>, p: Product, before: int): int
  {
    if FirstMatch(catalog, p.id) == Some(p) && LastQty(applied, p.id).Some?
    then LastQty(applied, p.id).value
    else before
  }

  /** A catalog object whose identifier no applied entry names keeps its quantity. */
  lemma UnnamedProductKeepsQty(applied: seq<CartEntry>, catalog: seq<Product>, p: Product, before: int)
    requires forall i :: 0 <= i < |applied| ==> applied[i].productId != p.id
    ensures QtyAfterJoin(applied, catalog, p, before) == before
  {
    LastQtyNone(applied, p.id);
  }

  /**
   * `generateCartItemsFrom(cartData, productsData)`. For each entry in turn it
   * takes the first catalog object with the entry's identifier, writes the
   * entry's quantity onto that object and appends the object to the cart. When
   * an entry has no product the call throws: the entries before it have already
   * written their quantities and no cart is returned.
   */
  method GenerateCartItemsFrom(cartData: seq<CartEntry>, productsData: seq<Product>)
    returns (r: Result<seq<Product>, JoinError>)
    modifies set p | p in productsData
    ensures r.Ok? <==> AllMatched(cartData, productsData)
    ensures r.Ok? ==> r.value == JoinedCart(cartData, productsData)
    ensures r.Ok? ==> forall i :: 0 <= i < |cartData| ==>
      LastQty(cartData, cartData[i].productId) == Some(r.value[i].qty)
    ensures r.Err? ==>
      var k := FirstUnmatched(cartData, productsData);
      k < |cartData| && r.error == ProductNotFound(k, cartData[k].productId)
    ensures var k := FirstUnmatched(cartData, productsData);
      forall p :: p in productsData ==> p.qty == QtyAfterJoin(cartData[..k], productsData, p, old(p.qty))
  {
    ghost var before := map p | p in productsData :: p.qty;
    var cart: seq<Product> := [];
    for i := 0 to |cartData|
      invariant |cart| == i
      invariant forall j :: 0 <= j < i ==> FirstMatch(productsData, cartData[j].productId) == Some(cart[j])
      invariant forall p :: p in productsData ==> p.qty == QtyAfterJoin(cartData[..i], productsData, p, before[p])
    {
      var temp := JoinStep(cartData[..i], cartData[i], productsData, before);
      if temp.None? {
        FirstUnmatchedAt(cartData, productsData, i);
        return Err(ProductNotFound(i, cartData[i].productId));
      }
      assert cartData[..i + 1] == cartData[..i] + [cartData[i]];
      cart := cart + [temp.value];
    }
    FirstUnmatchedAt(cartData, productsData, |cartData|);
    assert cartData[..|cartData|] == cartData;
    assert cart == JoinedCart(cartData, productsData);
    r := Ok(cart);
    JoinedCartQtys(cartData, productsData, before);
  }

  /** The body of the join's loop for one entry `e`: filter the catalog for
      its identifier and, when a product is found, write `e.qty` onto it. */
  method JoinStep(applied: seq<CartEntry>, e: CartEntry, productsData: seq<Product>, ghost before: map<Product, int>)
    returns (temp: Option<Product>)
    requires forall p :: p in productsData ==> p in before && p.qty == QtyAfterJoin(applied, productsData, p, before[p])
    modifies set p | p in productsData
    ensures temp == FirstMatch(productsData, e.productId)
    ensures temp.None? ==> forall p :: p in productsData ==> p.qty == old(p.qty)
    ensures temp.Some? ==>
      forall p :: p in productsData ==> p.qty == QtyAfterJoin(applied + [e], productsData, p, before[p])
  {
    temp := FirstMatch(productsData, e.productId);
    if temp.Some? {
      temp.value.qty := e.qty;
      forall p | p in productsData
        ensures p.qty == QtyAfterJoin(applied + [e], productsData, p, before[p])
      {
        QtyAfterJoinStep(applied, e, productsData, temp.value, p, before[p]);
      }
    }
  }

  /** Writing one more entry changes the quantity of the object the filter
      finds for it, and of no other catalog object. */
  lemma QtyAfterJoinStep(applied: seq<CartEntry>, e: CartEntry, catalog: seq<Product>, temp: Product, p: Product, before: int)
    requires FirstMatch(catalog, e.productId) == Some(temp)
    ensures QtyAfterJoin(applied + [e], catalog, p, before) ==
      if p == temp then e.qty else QtyAfterJoin(applied, catalog, p, before)
  {
    var s := applied + [e];
    assert s[..|s| - 1] == applied;
  }

  /** After a complete join, each slot of the cart carries the quantity of the
      last entry naming the same product. */
  lemma JoinedCartQtys(cartData: seq<CartEntry>, catalog: seq<Product>, before: map<Product, int>)
    requires AllMatched(cartData, catalog)
    requires forall p :: p in catalog ==> p in before && p.qty == QtyAfterJoin(cartData, catalog, p, before[p])
    ensures forall i :: 0 <= i < |cartData| ==>
      LastQty(cartData, cartData[i].productId) == Some(JoinedCart(cartData, catalog)[i].qty)
  {
    forall i | 0 <= i < |cartData|
      ensures LastQty(cartData, cartData[i].productId) == Some(JoinedCart(cartData, catalog)[i].qty)
    {
      LastQtySome(cartData, i);
    }
  }

  /** No two entries name the same product. */
  predicate DistinctIds(cartData: seq<CartEntry>)
  {
    forall i, j :: 0 <= i < j < |cartData| ==> cartData[i].productId != cartData[j].productId
  }

  /** When no product appears twice in the cart, every slot of the joined cart
      carries its own entry's quantity. */
  lemma DistinctEntriesKeepQty(cartData: seq<CartEntry>, i: nat)
    requires DistinctIds(cartData) && i < |cartData|
    ensures LastQty(cartData, cartData[i].productId) == Some(cartData[i].qty)
  {
    LastQtyIsLast(cartData, i);
  }

  /** Joining the same cart again writes the same quantities: the catalog
      state after two joins is the state after one. */
  lemma QtyAfterJoinIdempotent(applied: seq<CartEntry>, catalog: seq<Product>, p: Product, before: int)
    ensures QtyAfterJoin(applied, catalog, p, QtyAfterJoin(applied, catalog, p, before))
      == QtyAfterJoin(applied, catalog, p, before)
  {
  }

  /** The order total: the sum of `cost * qty` over the items. */
  function TotalValue(items: seq<Product>): int
    reads items
  {
    if items == [] then 0
    else TotalValue(items[..|items| - 1]) + items[|items| - 1].cost * items[|items| - 1].qty
  }

  /** The number of units in the cart: the sum of `qty` over the items. */
  function TotalItems(items: seq<Product>): int
    reads items
  {
    if items == [] then 0
    else TotalItems(items[..|items| - 1]) + items[|items| - 1].qty
  }

  /** `getTotalCartValue(items = [])`: accumulates `cost * qty` item by item. */
  method GetTotalCartValue(items: seq<Product> := []) returns (totalVal: int)
    ensures totalVal == TotalValue(items)
    ensures items == [] ==> totalVal == 0
  {
    totalVal := 0;
    for i := 0 to |items|
      invariant totalVal == TotalValue(items[..i])
    {
      assert items[..i + 1][..i] == items[..i];
      totalVal := totalVal + items[i].cost * items[i].qty;
    }
    assert items[..|items|] == items;
  }

  /** `getTotalItems(items = [])`: accumulates `qty` item by item. */
  method GetTotalItems(items: seq<Product> := []) returns (quantity: int)
    ensures quantity == TotalItems(items)
    ensures items == [] ==> quantity == 0
  {
    quantity := 0;
    for i := 0 to |items|
      invariant quantity == TotalItems(items[..i])
    {
      assert items[..i + 1][..i] == items[..i];
      quantity := quantity + items[i].qty;
    }
    assert items[..|items|] == items;
  }

  /** The order total is additive over concatenated item lists. */
  lemma {:induction false} TotalValueAppend(a: seq<Product>, b: seq<Product>)
    ensures TotalValue(a + b) == TotalValue(a) + TotalValue(b)
    decreases |b|
  {
    if b != [] {
      var b' := b[..|b| - 1];
      assert (a + b)[..|a + b| - 1] == a + b';
      TotalValueAppend(a, b');
    } else {
      assert a + b == a;
    }
  }

  /** The item count is additive over concatenated item lists. */
  lemma {:induction false} TotalItemsAppend(a: seq<Product>, b: seq<Product>)
    ensures TotalItems(a + b) == TotalItems(a) + TotalItems(b)
    decreases |b|
  {
    if b != [] {
      var b' := b[..|b| - 1];
      assert (a + b)[..|a + b| - 1] == a + b';
      TotalItemsAppend(a, b');
    } else {
      assert a + b == a;
    }
  }

  /** The order value computed from the server's cart alone: each entry's
      quantity times the cost of the product it names. */
  function EntriesValue(cartData: seq<CartEntry>, catalog: seq<Product>): int
    requires AllMatched(cartData, catalog)
  {
    if cartData == [] then 0
    else
      var n := |cartData| - 1;
      EntriesValue(cartData[..n], catalog) + FirstMatch(catalog, cartData[n].productId).value.cost * cartData[n].qty
  }

  /** When every slot of the joined cart carries its entry's quantity (as it
      does after a join of a cart without repeated products), the order total
      is the value of the server's cart. */
  lemma {:induction false} JoinedCartValue(cartData: seq<CartEntry>, catalog: seq<Product>)
    requires AllMatched(cartData, catalog)
    requires forall i :: 0 <= i < |cartData| ==> JoinedCart(cartData, catalog)[i].qty == cartData[i].qty
    ensures TotalValue(JoinedCart(cartData, catalog)) == EntriesValue(cartData, catalog)
  {
    if cartData != [] {
      var n := |cartData| - 1;
      var front := cartData[..n];
      var cart := JoinedCart(cartData, catalog);
      assert forall i :: 0 <= i < n ==> front[i] == cartData[i];
      assert cart[..n] == JoinedCart(front, catalog);
      JoinedCartValue(front, catalog);
    }
  }

  /** A catalog holding product "A" at cost 10 and a cart holding 3 of it give
      one cart item carrying quantity 3 and an order total of 30. */
  method SingleItemOrder() returns (items: seq<Product>, total: int)
    ensures |items| == 1 && items[0].id == "A" && items[0].qty == 3
    ensures total == 30
  {
    var a := new Product("A", "Item", "Misc", 10, 5, "a.png");
    var r := GenerateCartItemsFrom([CartEntry("A", 3)], [a]);
    assert FirstMatch([a], "A") == Some(a);
    assert AllMatched([CartEntry("A", 3)], [a]);
    items := r.value;
    total := GetTotalCartValue(items);
    assert items == [a];
    assert items[..0] == [];
  }

  /** A cart entry naming a product missing from the catalog makes the join
      throw instead of leaving the entry out. */
  method MissingProductThrows() returns (r: Result<seq<Product>, JoinError>)
    ensures r == Err(ProductNotFound(0, "Z"))
  {
    var a := new Product("A", "Item", "Misc", 10, 5, "a.png");
    r := GenerateCartItemsFrom([CartEntry("Z", 1)], [a]);
    assert FirstMatch([a], "Z") == None;
  }

  /** A join over a cart naming only "A" writes "A"'s quantity and leaves the
      other catalog product as it was. */
  method UnnamedProductUntouched() returns (aQty: int, bQty: int)
    ensures aQty == 2 && bQty == 7
  {
    var a := new Product("A", "Item", "Misc", 10, 5, "a.png");
    var b := new Product("B", "Other", "Misc", 4, 3, "b.png");
    b.qty := 7;
    var cart := [CartEntry("A", 2)];
    var r := GenerateCartItemsFrom(cart, [a, b]);
    var k := FirstUnmatched(cart, [a, b]);
    assert FirstMatch([a, b], "A") == Some(a);
    FirstUnmatchedAt(cart, [a, b], 1);
    assert cart[..k] == cart;
    UnnamedProductKeepsQty(cart[..k], [a, b], b, 7);
    aQty, bQty := a.qty, b.qty;
  }
}
