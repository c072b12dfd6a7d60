/**
 * The shopping cart as a value: a map from product id to quantity, and the
 * three edits the store makes to a copy of the cart before it replaces the
 * old cart with that copy (add one, set a quantity, remove one).
 */
module CartOps {

  /** Product id to stored quantity. Nothing keeps a quantity positive: a
      caller of the set-quantity edit may store zero or a negative number. */
  type Cart = map<string, int>

  /** The quantity of `id`, reading a missing key as 0. */
  function Qty(m: Cart, id: string): int {
    if id in m then m[id] else 0
  }

  /** The truth value of `cart[id]` in the store: false both for a missing
      key and for a stored 0. */
  predicate Present(m: Cart, id: string) {
    id in m && m[id] != 0
  }

  /** Every stored quantity is at least one (so no zero entry is stored). */
  predicate AllPositive(m: Cart) {
    forall id :: id in m ==> m[id] > 0
  }

  /** `addToCart`: one more of `id`; a missing or zero entry becomes 1. */
  function AddedCart(m: Cart, id: string): (r: Cart)
    ensures r.Keys == m.Keys + {id}
    ensures r[id] == Qty(m, id) + 1
    ensures forall k :: k in m && k != id ==> r[k] == m[k]
    ensures AllPositive(m) ==> AllPositive(r)
  {
    if Present(m, id) then m[id := m[id] + 1] else m[id := 1]
  }

  /** `updateCartItem`: stores exactly `q` for `id`, whatever its sign; the
      key is never deleted. */
  function UpdatedCart(m: Cart, id: string, q: int): (r: Cart)
    ensures r.Keys == m.Keys + {id}
    ensures r[id] == q
    ensures forall k :: k in m && k != id ==> r[k] == m[k]
    ensures AllPositive(m) ==> (AllPositive(r) <==> q > 0)
  {
    m[id := q]
  }

  /** `removeFromCart`: one fewer of a present `id`, deleting the key when
      the quantity drops to exactly 0; an absent or zero entry is left as
      it is. A negative quantity keeps decreasing and is never deleted. */
  function RemovedCart(m: Cart, id: string): (r: Cart)
    ensures !Present(m, id) ==> r == m
    ensures Present(m, id) && m[id] == 1 ==> r.Keys == m.Keys - {id}
    ensures Present(m, id) && m[id] != 1 ==> r.Keys == m.Keys && r[id] == m[id] - 1
    ensures forall k :: k in r && k != id ==> r[k] == m[k]
    ensures AllPositive(m) ==> AllPositive(r)
  {
    if Present(m, id) then
      if m[id] - 1 == 0 then m - {id} else m[id := m[id] - 1]
    else
      m
  }

  /** Removing right after adding gives the old cart back exactly when the
      old entry was missing, or neither 0 (the add turns it into 1 and the
      remove then deletes the key) nor -1 (the add turns it into 0, which the
      remove then leaves alone). */
  lemma RemoveUndoesAdd(m: Cart, id: string)
    ensures RemovedCart(AddedCart(m, id), id) == m <==> (id !in m || (m[id] != 0 && m[id] != -1))
  {
  }

  /** Adding right after removing gives the old cart back exactly when the
      entry was present with a nonzero quantity. */
  lemma AddUndoesRemove(m: Cart, id: string)
    ensures AddedCart(RemovedCart(m, id), id) == m <==> Present(m, id)
  {
  }

  /** Two quantity updates of one id: the second one wins. */
  lemma UpdateLastWins(m: Cart, id: string, p: int, q: int)
    ensures UpdatedCart(UpdatedCart(m, id, p), id, q) == UpdatedCart(m, id, q)
  {
  }
}
