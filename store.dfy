/**
 * The shared application store: the signed-in user, the seller flag, the
 * catalog and the cart, the operations that replace them, and the rule that
 * every replaced cart is pushed to the backend while a user is signed in.
 *
 * The backend is not called: each reply it would give is a parameter, and
 * the carts the store would push are recorded in a log (`pushed`).
 */
module AppStore {
  import opened Wrappers
  import opened CartOps
  import opened CartTotals

  /** A signed-in user: an opaque identity and the cart saved with it. */
  datatype User = User(id: string, cartItems: Cart)

  /** What the user-auth check can come back with: a success reply carrying
      the user, a reply whose success flag is false, or a thrown error. */
  datatype UserReply = UserAuthorized(user: User) | UserRejected | UserThrew

  /** The same for the seller-auth check. */
  datatype SellerReply = SellerAuthorized | SellerRejected | SellerThrew

  /** The same for the product list, with the message an error carries. */
  datatype ProductsReply =
    | ProductsListed(products: seq<Product>)
    | ProductsRejected(message: string)
    | ProductsThrew(message: string)

  /** The cart edits the store offers. */
  datatype CartOp = Add(id: string) | Update(id: string, quantity: int) | Remove(id: string)

  /** The result of the amount query: cents, or the positive entry whose
      product is not in the catalog. */
  datatype AmountResult = Amount(cents: int) | MissingProduct(id: string)

  /** Everything the store holds, plus the carts pushed so far. */
  datatype StoreState = StoreState(
    user: Option<User>,
    isSeller: bool,
    products: seq<Product>,
    cartItems: Cart,
    pushed: seq<Cart>)

  /** The store before any reply has arrived. */
  const Initial := StoreState(None, false, [], map[], [])

  /** The sync rule: a new cart is pushed when, and only when, a user is
      signed in. */
  function Synced(pushed: seq<Cart>, user: Option<User>, next: Cart): seq<Cart> {
    if user.Some? then pushed + [next] else pushed
  }

  /** Replacing the cart, followed by the sync reaction to the new cart. */
  function Replaced(s: StoreState, next: Cart): StoreState {
    s.(cartItems := next, pushed := Synced(s.pushed, s.user, next))
  }

  function ApplyOp(c: Cart, op: CartOp): Cart {
    match op
    case Add(id) => AddedCart(c, id)
    case Update(id, q) => UpdatedCart(c, id, q)
    case Remove(id) => RemovedCart(c, id)
  }

  /** One cart edit: the edited copy replaces the cart, and the sync rule
      fires, also when the edit changed nothing. */
  function Step(s: StoreState, op: CartOp): (r: StoreState)
    ensures r.user == s.user && r.isSeller == s.isSeller && r.products == s.products
    ensures r.cartItems == ApplyOp(s.cartItems, op)
    ensures s.user.Some? ==> r.pushed == s.pushed + [r.cartItems]
    ensures s.user.None? ==> r.pushed == s.pushed
  {
    Replaced(s, ApplyOp(s.cartItems, op))
  }

  /** A sequence of cart edits, first to last. */
  function Run(s: StoreState, ops: seq<CartOp>): StoreState
    decreases |ops|
  {
    if ops == [] then s else Run(Step(s, ops[0]), ops[1..])
  }

  /** The cart after each edit of `ops`, in order. */
  function Carts(c: Cart, ops: seq<CartOp>): (r: seq<Cart>)
    ensures |r| == |ops|
    ensures ops != [] ==> r[0] == ApplyOp(c, ops[0])
    decreases |ops|
  {
    if ops == [] then [] else [ApplyOp(c, ops[0])] + Carts(ApplyOp(c, ops[0]), ops[1..])
  }

  /** The user-auth reply: on success the user is set and the cart is
      replaced by the user's saved cart, which the sync rule then pushes; a
      rejected reply changes nothing; a thrown error signs the user out and
      leaves the cart, so nothing is pushed. */
  function AfterUserReply(s: StoreState, reply: UserReply): (r: StoreState)
    ensures r.isSeller == s.isSeller && r.products == s.products
    ensures reply.UserAuthorized? ==>
              r.user == Some(reply.user) && r.cartItems == reply.user.cartItems &&
              r.pushed == s.pushed + [reply.user.cartItems]
    ensures reply.UserRejected? ==> r == s
    ensures reply.UserThrew? ==> r.user.None? && r.cartItems == s.cartItems && r.pushed == s.pushed
  {
    match reply
    case UserAuthorized(u) => Replaced(s.(user := Some(u)), u.cartItems)
    case UserRejected => s
    case UserThrew => s.(user := None)
  }

  /** The seller-auth reply: the flag is set exactly on a success reply. */
  function AfterSellerReply(s: StoreState, reply: SellerReply): (r: StoreState)
    ensures r.isSeller <==> reply.SellerAuthorized?
    ensures r.(isSeller := s.isSeller) == s
  {
    s.(isSeller := reply.SellerAuthorized?)
  }

  /** The product-list reply: only a success reply replaces the catalog. */
  function AfterProductsReply(s: StoreState, reply: ProductsReply): (r: StoreState)
    ensures reply.ProductsListed? ==> r.products == reply.products
    ensures !reply.ProductsListed? ==> r == s
    ensures r.(products := s.products) == s
  {
    if reply.ProductsListed? then s.(products := reply.products) else s
  }

  /** The error notice a product-list reply raises, if any. */
  function ProductsNotice(reply: ProductsReply): (notice: Option<string>)
    ensures notice.None? <==> reply.ProductsListed?
    ensures notice.Some? ==> notice.value == reply.message
  {
    match reply
    case ProductsListed(_) => None
    case ProductsRejected(msg) => Some(msg)
    case ProductsThrew(msg) => Some(msg)
  }

  /** Cart edits never touch the user, the seller flag or the catalog. */
  lemma {:induction false} RunKeepsSession(s: StoreState, ops: seq<CartOp>)
    ensures Run(s, ops).user == s.user
    ensures Run(s, ops).isSeller == s.isSeller
    ensures Run(s, ops).products == s.products
    decreases |ops|
  {
    if ops != [] {
      RunKeepsSession(Step(s, ops[0]), ops[1..]);
    }
  }

  /** While no user is signed in, no cart edit pushes anything. */
  lemma {:induction false} AnonymousRunPushesNothing(s: StoreState, ops: seq<CartOp>)
    requires s.user.None?
    ensures Run(s, ops).pushed == s.pushed
    decreases |ops|
  {
    if ops != [] {
      AnonymousRunPushesNothing(Step(s, ops[0]), ops[1..]);
    }
  }

  /** While a user is signed in, each edit pushes exactly one cart, the one
      it produced, in order. */
  lemma {:induction false} SignedInRunPushesEachCart(s: StoreState, ops: seq<CartOp>)
    requires s.user.Some?
    ensures Run(s, ops).pushed == s.pushed + Carts(s.cartItems, ops)
    decreases |ops|
  {
    if ops != [] {
      var t := Step(s, ops[0]);
      SignedInRunPushesEachCart(t, ops[1..]);
      assert s.pushed + Carts(s.cartItems, ops) == t.pushed + Carts(t.cartItems, ops[1..]);
    }
  }

  /** The cart at the end of a run is the last cart of the run. */
  lemma {:induction false} RunEndsWithLastCart(s: StoreState, ops: seq<CartOp>)
    requires ops != []
    ensures Run(s, ops).cartItems == Carts(s.cartItems, ops)[|ops| - 1]
    decreases |ops|
  {
    if |ops| > 1 {
      var t := Step(s, ops[0]);
      RunEndsWithLastCart(t, ops[1..]);
    }
  }

  /** So, signed in, the last cart pushed is the cart the store holds. */
  lemma LastPushIsCurrentCart(s: StoreState, ops: seq<CartOp>)
    requires s.user.Some? && ops != []
    ensures |Run(s, ops).pushed| == |s.pushed| + |ops|
    ensures Run(s, ops).pushed[|Run(s, ops).pushed| - 1] == Run(s, ops).cartItems
  {
    SignedInRunPushesEachCart(s, ops);
    RunEndsWithLastCart(s, ops);
  }

  /** `n` copies of one edit. */
  function Repeat(op: CartOp, n: nat): (r: seq<CartOp>)
    ensures |r| == n
    ensures forall i :: 0 <= i < n ==> r[i] == op
  {
    if n == 0 then [] else [op] + Repeat(op, n - 1)
  }

  /** After `n` adds of one id its quantity is `n` more than before; from
      an empty entry, it is the number of adds. */
  lemma {:induction false} RepeatedAdds(s: StoreState, id: string, n: nat)
    ensures Qty(Run(s, Repeat(Add(id), n)).cartItems, id) == Qty(s.cartItems, id) + n
    decreases n
  {
    if n > 0 {
      var ops := Repeat(Add(id), n);
      assert ops[1..] == Repeat(Add(id), n - 1);
      RepeatedAdds(Step(s, Add(id)), id, n - 1);
    }
  }

  /** A run made only of adds raises the item count by its length. */
  lemma {:induction false} AddsRaiseCount(s: StoreState, ops: seq<CartOp>)
    requires forall i :: 0 <= i < |ops| ==> ops[i].Add?
    ensures Sum(Run(s, ops).cartItems) == Sum(s.cartItems) + |ops|
    decreases |ops|
  {
    if ops != [] {
      CountAfterAdd(s.cartItems, ops[0].id);
      AddsRaiseCount(Step(s, ops[0]), ops[1..]);
    }
  }

  /** Edits that never store a quantity below 1 keep every quantity
      positive; only a quantity update to 0 or less can break this. */
  lemma {:induction false} PositiveRun(s: StoreState, ops: seq<CartOp>)
    requires AllPositive(s.cartItems)
    requires forall i :: 0 <= i < |ops| ==> ops[i].Update? ==> ops[i].quantity > 0
    ensures AllPositive(Run(s, ops).cartItems)
    decreases |ops|
  {
    if ops != [] {
      PositiveRun(Step(s, ops[0]), ops[1..]);
    }
  }

  /** A remove of an absent or zero entry leaves the cart as it was, yet a
      signed-in store still pushes it, because the cart was replaced. */
  lemma NoOpRemoveStillPushes(s: StoreState, id: string)
    requires s.user.Some? && !Present(s.cartItems, id)
    ensures Step(s, Remove(id)).cartItems == s.cartItems
    ensures Step(s, Remove(id)).pushed == s.pushed + [s.cartItems]
  {
  }

  /** Signing in with the saved cart {a: 1} gives an item count of 1 and
      exactly one push. */
  lemma SignInExample(u: User)
    requires u.cartItems == map["a" := 1]
    ensures Sum(AfterUserReply(Initial, UserAuthorized(u)).cartItems) == 1
    ensures AfterUserReply(Initial, UserAuthorized(u)).pushed == [map["a" := 1]]
  {
    SumRemove(map["a" := 1], "a");
    assert map["a" := 1] - {"a"} == map[];
  }

  /** The store as the application holds it. Setters replace whole values;
      the cart edits work on a copy of the cart and then replace it. */
  class CartStore {
    var user: Option<User>
    var isSeller: bool
    var products: seq<Product>
    var cartItems: Cart
    /** The carts the sync reaction has sent to the backend, oldest first. */
    ghost var pushed: seq<Cart>

    ghost function State(): StoreState
      reads this
    {
      StoreState(user, isSeller, products, cartItems, pushed)
    }

    constructor ()
      ensures State() == Initial
    {
      user := None;
      isSeller := false;
      products := [];
      cartItems := map[];
      pushed := [];
    }

    /** `setCartItems` together with the sync reaction to the new cart. */
    method SetCartItems(next: Cart)
      modifies this
      ensures cartItems == next
      ensures pushed == Synced(old(pushed), old(user), next)
      ensures State() == Replaced(old(State()), next)
    {
      cartItems := next;
      if user.Some? {
        pushed := pushed + [next];
      }
    }

    method AddToCart(itemId: string)
      modifies this
      ensures cartItems == AddedCart(old(cartItems), itemId)
      ensures State() == Step(old(State()), Add(itemId))
    {
      var cartData := cartItems;
      if Present(cartData, itemId) {
        cartData := cartData[itemId := cartData[itemId] + 1];
      } else {
        cartData := cartData[itemId := 1];
      }
      SetCartItems(cartData);
    }

    method UpdateCartItem(itemId: string, quantity: int)
      modifies this
      ensures cartItems == UpdatedCart(old(cartItems), itemId, quantity)
      ensures State() == Step(old(State()), Update(itemId, quantity))
    {
      var cartData := cartItems;
      cartData := cartData[itemId := quantity];
      SetCartItems(cartData);
    }

    method RemoveFromCart(itemId: string)
      modifies this
      ensures cartItems == RemovedCart(old(cartItems), itemId)
      ensures State() == Step(old(State()), Remove(itemId))
    {
      var cartData := cartItems;
      if Present(cartData, itemId) {
        cartData := cartData[itemId := cartData[itemId] - 1];
        if cartData[itemId] == 0 {
          cartData := cartData - {itemId};
        }
      }
      SetCartItems(cartData);
    }

    /** `getCartCount`: the sum of all stored quantities. */
    method GetCartCount() returns (totalCount: int)
      ensures totalCount == Sum(cartItems)
    {
      totalCount := 0;
      var rest := cartItems;
      while rest != map[]
        invariant totalCount + Sum(rest) == Sum(cartItems)
        decreases |rest|
      {
        var item :| item in rest;
        SumRemove(rest, item);
        totalCount := totalCount + rest[item];
        rest := rest - {item};
      }
    }

    /** `getCartAmount`: offer price times quantity over the positive
        entries, failing on a positive entry whose product is not listed. */
    method GetCartAmount() returns (r: AmountResult)
      ensures r.MissingProduct? <==> CartAmount(cartItems, products).None?
      ensures r.MissingProduct? ==>
                r.id in cartItems && cartItems[r.id] > 0 && FindProduct(products, r.id).None?
      ensures r.Amount? ==> CartAmount(cartItems, products) == Some(r.cents)
    {
      var totalAmount := 0;
      var rest := cartItems;
      while rest != map[]
        invariant forall k :: k in rest ==> k in cartItems && rest[k] == cartItems[k]
        invariant forall k :: k in cartItems && k !in rest && cartItems[k] > 0 ==>
                    FindProduct(products, k).Some?
        invariant totalAmount + Sum(Lines(rest, products)) == Sum(Lines(cartItems, products))
        decreases |rest|
      {
        var items :| items in rest;
        var itemInfo := FindProduct(products, items);
        LinesRemove(rest, products, items);
        if rest[items] > 0 {
          if itemInfo.None? {
            return MissingProduct(items);
          }
          totalAmount := totalAmount + itemInfo.value.offerPrice * rest[items];
        }
        rest := rest - {items};
      }
      assert Lines(rest, products) == map[];
      r := Amount(totalAmount);
    }

    /** `fetchUser`, given the reply of the user-auth check. */
    method FetchUser(reply: UserReply)
      modifies this
      ensures State() == AfterUserReply(old(State()), reply)
    {
      match reply
      case UserAuthorized(u) =>
        user := Some(u);
        SetCartItems(u.cartItems);
      case UserRejected =>
      case UserThrew =>
        user := None;
    }

    /** `fetchSeller`, given the reply of the seller-auth check. */
    method FetchSeller(reply: SellerReply)
      modifies this
      ensures State() == AfterSellerReply(old(State()), reply)
    {
      match reply
      case SellerAuthorized => isSeller := true;
      case SellerRejected => isSeller := false;
      case SellerThrew => isSeller := false;
    }

    /** `fetchProducts`, given the reply of the product list; returns the
        error notice it shows, if any. */
    method FetchProducts(reply: ProductsReply) returns (notice: Option<string>)
      modifies this
      ensures State() == AfterProductsReply(old(State()), reply)
      ensures notice == ProductsNotice(reply)
    {
      match reply
      case ProductsListed(ps) =>
        products := ps;
        notice := None;
      case ProductsRejected(msg) =>
        notice := Some(msg);
      case ProductsThrew(msg) =>
        notice := Some(msg);
    }
  }
}
