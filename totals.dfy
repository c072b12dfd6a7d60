/**
 * What the two cart queries compute: the sum of all quantities, and the
 * amount due, which prices every positive entry at the offer price of the
 * first catalog product with that id.
 */
module CartTotals {
  import opened Wrappers
  import opened CartOps

  /** A catalog entry. Prices are whole cents. */
  datatype Product = Product(id: string, name: string, price: int, offerPrice: int)

  /** The sum of the values of a map, in no particular key order. */
  ghost function Sum(m: map<string, int>): int
    decreases |m|
  {
    if m == map[] then 0
    else
      var k :| k in m;
      m[k] + Sum(m - {k})
  }

  /** Whatever key `Sum` happens to pick first, any key can be taken out
      first: the sum does not depend on the order of the keys. */
  lemma {:induction false} SumRemove(m: map<string, int>, k: string)
    requires k in m
    ensures Sum(m) == m[k] + Sum(m - {k})
    decreases |m|
  {
    var j :| j in m && Sum(m) == m[j] + Sum(m - {j});
    if j != k {
      SumRemove(m - {j}, k);
      SumRemove(m - {k}, j);
      assert (m - {j}) - {k} == (m - {k}) - {j};
    }
  }

  /** Storing `v` under `k` moves the sum by `v` less whatever was there. */
  lemma SumUpdate(m: map<string, int>, k: string, v: int)
    ensures Sum(m[k := v]) == Sum(m) - (if k in m then m[k] else 0) + v
  {
    SumRemove(m[k := v], k);
    if k in m {
      SumRemove(m, k);
      assert m[k := v] - {k} == m - {k};
    } else {
      assert m[k := v] - {k} == m;
    }
  }

  /** Array `find` over the catalog: the first product whose id is `id`. */
  function FindProduct(products: seq<Product>, id: string): (r: Option<Product>)
    ensures r.None? <==> forall i :: 0 <= i < |products| ==> products[i].id != id
    ensures r.Some? ==> r.value.id == id
    ensures r.Some? ==> exists i :: 0 <= i < |products| && products[i] == r.value &&
                                    forall j :: 0 <= j < i ==> products[j].id != id
  {
    if products == [] then None
    else if products[0].id == id then Some(products[0])
    else
      var r := FindProduct(products[1..], id);
      assert forall i :: 1 <= i < |products| ==> products[i] == products[1..][i - 1];
      r
  }

  /** What one cart entry adds to the amount: offer price times quantity
      for a positive quantity of a listed product, else nothing. */
  function LineCents(products: seq<Product>, id: string, q: int): int {
    if q > 0 then
      match FindProduct(products, id)
      case Some(p) => p.offerPrice * q
      case None => 0
    else 0
  }

  /** Each entry of the cart replaced by what it adds to the amount. */
  function Lines(m: Cart, products: seq<Product>): map<string, int> {
    map id | id in m :: LineCents(products, id, m[id])
  }

  /** Every entry with a positive quantity has a product in the catalog;
      otherwise the amount query fails on the missing product. */
  predicate Priced(m: Cart, products: seq<Product>) {
    forall id :: id in m && m[id] > 0 ==> FindProduct(products, id).Some?
  }

  /** The outcome of the amount query: the amount in cents, or nothing
      when a positive entry has no product. */
  ghost function CartAmount(m: Cart, products: seq<Product>): Option<int> {
    if Priced(m, products) then Some(Sum(Lines(m, products))) else None
  }

  /** Taking a key out of the cart takes its line out of the lines. */
  lemma LinesRemove(m: Cart, products: seq<Product>, k: string)
    requires k in m
    ensures Sum(Lines(m, products)) == LineCents(products, k, m[k]) + Sum(Lines(m - {k}, products))
  {
    SumRemove(Lines(m, products), k);
    assert Lines(m, products) - {k} == Lines(m - {k}, products);
  }

  /** The item count goes up by exactly one with each add, whatever the old
      entry was. */
  lemma CountAfterAdd(m: Cart, id: string)
    ensures Sum(AddedCart(m, id)) == Sum(m) + 1
  {
    SumUpdate(m, id, Qty(m, id) + 1);
    assert AddedCart(m, id) == m[id := Qty(m, id) + 1];
  }

  /** A remove lowers the count by one when it changes anything, and
      leaves it when the entry was missing or zero. */
  lemma CountAfterRemove(m: Cart, id: string)
    ensures Sum(RemovedCart(m, id)) == if Present(m, id) then Sum(m) - 1 else Sum(m)
  {
    if Present(m, id) {
      if m[id] == 1 {
        SumRemove(m, id);
      } else {
        SumUpdate(m, id, m[id] - 1);
      }
    }
  }

  /** Setting a quantity swaps the old quantity for the new in the count. */
  lemma CountAfterUpdate(m: Cart, id: string, q: int)
    ensures Sum(UpdatedCart(m, id, q)) == Sum(m) - Qty(m, id) + q
  {
    SumUpdate(m, id, q);
  }

  /** Adding a listed product with a non-negative quantity raises the amount
      by its offer price; the amount stays defined. */
  lemma AmountAfterAdd(m: Cart, products: seq<Product>, id: string, p: Product)
    requires Priced(m, products)
    requires FindProduct(products, id) == Some(p)
    requires Qty(m, id) >= 0
    ensures CartAmount(AddedCart(m, id), products) == Some(Sum(Lines(m, products)) + p.offerPrice)
  {
    LinesAfterAdd(m, products, id, p);
    PricedAfterAdd(m, products, id);
  }

  /** The sum of the lines after an add of a listed product whose quantity
      was not negative. */
  lemma LinesAfterAdd(m: Cart, products: seq<Product>, id: string, p: Product)
    requires FindProduct(products, id) == Some(p)
    requires Qty(m, id) >= 0
    ensures Sum(Lines(AddedCart(m, id), products)) == Sum(Lines(m, products)) + p.offerPrice
  {
    var q := Qty(m, id);
    var lines := Lines(m, products);
    var v := p.offerPrice * (q + 1);
    var before := if id in lines then lines[id] else 0;
    LinesOfAdded(m, products, id, p);
    SumUpdate(lines, id, v);
    assert Sum(lines[id := v]) == Sum(lines) - before + v;
    LineBefore(m, products, id, p);
    MulSucc(p.offerPrice, q);
    assert v == before + p.offerPrice;
  }

  /** The lines after an add: only the added id's line changes. */
  lemma LinesOfAdded(m: Cart, products: seq<Product>, id: string, p: Product)
    requires FindProduct(products, id) == Some(p)
    requires Qty(m, id) >= 0
    ensures Lines(AddedCart(m, id), products) == Lines(m, products)[id := p.offerPrice * (Qty(m, id) + 1)]
  {
  }

  /** The line of a listed id before the add, reading a missing line as 0. */
  lemma LineBefore(m: Cart, products: seq<Product>, id: string, p: Product)
    requires FindProduct(products, id) == Some(p)
    requires Qty(m, id) >= 0
    ensures (if id in Lines(m, products) then Lines(m, products)[id] else 0) == p.offerPrice * Qty(m, id)
  {
  }

  /** Adding a listed product keeps every positive entry priced. */
  lemma PricedAfterAdd(m: Cart, products: seq<Product>, id: string)
    requires Priced(m, products)
    requires FindProduct(products, id).Some?
    ensures Priced(AddedCart(m, id), products)
  {
  }

  /** One more item costs one more unit price. */
  lemma MulSucc(x: int, q: int)
    ensures x * (q + 1) == x * q + x
  {
  }

  /** An entry with quantity 0 or less neither adds to the amount nor can
      make the query fail: dropping it changes nothing. */
  lemma AmountIgnoresNonPositive(m: Cart, products: seq<Product>, id: string)
    requires id in m && m[id] <= 0
    ensures CartAmount(m, products) == CartAmount(m - {id}, products)
  {
    LinesRemove(m, products, id);
    assert Priced(m, products) <==> Priced(m - {id}, products);
  }

  /** The count of the cart {a: 2, b: 3} is 5. */
  lemma CountExample()
    ensures Sum(map["a" := 2, "b" := 3]) == 5
  {
    var m := map["a" := 2, "b" := 3];
    SumRemove(m, "a");
    assert m - {"a"} == map["b" := 3];
    SumRemove(map["b" := 3], "b");
    assert map["b" := 3] - {"b"} == map[];
  }

  /** Two of a product on offer at 1000 cents (list price 1200) cost 2000
      cents: the offer price is the one used. */
  lemma AmountExample()
    ensures CartAmount(map["a" := 2], [Product("a", "apple", 1200, 1000)]) == Some(2000)
  {
    var m := map["a" := 2];
    var ps := [Product("a", "apple", 1200, 1000)];
    assert FindProduct(ps, "a") == Some(ps[0]);
    assert Lines(m, ps) == map["a" := 2000];
    SumRemove(map["a" := 2000], "a");
    assert map["a" := 2000] - {"a"} == map[];
  }
}
