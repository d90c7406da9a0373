/** The shopping cart of a React Native store front: the line-item list that the
    cart provider keeps and the three rules (add, increment, decrement) by which
    it is rewritten. Storage, JSON and the React plumbing around it are not
    modelled; see README.md. */
module Cart {

  datatype Option<T> = None | Some(value: T)

  datatype Result<T, E> = Success(value: T) | Failure(error: E)

  /** A cart line. The price is carried along and never computed with. */
  datatype Product = Product(id: string, title: string, imageUrl: string, price: real, quantity: int)

  /** What the product list hands to addToCart: a product without a quantity. */
  datatype CatalogItem = CatalogItem(id: string, title: string, imageUrl: string, price: real)

  /** The message useCart throws outside a provider. */
  const USE_CART_ERROR := "useCart must be used within a CartProvider"

  // ---------------------------------------------------------------------------
  // Views and invariants of a cart snapshot

  /** The ids of the lines, in cart order. */
  function Ids(s: seq<Product>): (r: seq<string>)
    ensures |r| == |s|
    ensures forall i :: 0 <= i < |s| ==> r[i] == s[i].id
  {
    if s == [] then [] else [s[0].id] + Ids(s[1..])
  }

  ghost predicate DistinctIds(s: seq<Product>) {
    forall i, j :: 0 <= i < j < |s| ==> s[i].id != s[j].id
  }

  ghost predicate PositiveQuantities(s: seq<Product>) {
    forall i :: 0 <= i < |s| ==> s[i].quantity >= 1
  }

  /** What the cart rules keep: one line per id, and every quantity at least 1. */
  ghost predicate Valid(s: seq<Product>) {
    DistinctIds(s) && PositiveQuantities(s)
  }

  // ---------------------------------------------------------------------------
  // The list computations of addToCart, increment and decrement

  /** `products.find(value => value.id === id)`: the first line with this id. */
  function Find(s: seq<Product>, id: string): (r: Option<Product>)
    ensures r.None? <==> id !in Ids(s)
    ensures r.Some? ==> r.value.id == id && r.value in s
    ensures r.Some? ==>
      exists i :: 0 <= i < |s| && s[i] == r.value && forall j :: 0 <= j < i ==> s[j].id != id
  {
    if s == [] then None
    else if s[0].id == id then Some(s[0])
    else
      var r := Find(s[1..], id);
      assert forall i :: 0 <= i < |s[1..]| ==> s[1..][i] == s[i + 1];
      r
  }

  /** The quantity of the first line with this id, 0 when there is none. */
  function QuantityOf(s: seq<Product>, id: string): int {
    match Find(s, id)
    case Some(p) => p.quantity
    case None => 0
  }

  /** The line `{...product, quantity: 1}` that addToCart appends. */
  function NewLine(item: CatalogItem): Product {
    Product(item.id, item.title, item.imageUrl, item.price, 1)
  }

  /** The callback of increment's map: a matching line gains one. */
  function IncrementLine(p: Product, id: string): Product {
    if p.id == id then p.(quantity := p.quantity + 1) else p
  }

  /** The callback of decrement's map: a matching line above 1 loses one. */
  function DecrementLine(p: Product, id: string): Product {
    if p.id == id && p.quantity > 1 then p.(quantity := p.quantity - 1) else p
  }

  /** The list increment(id) computes: same lines in the same order, and every
      line carrying `id` one unit more; no other field of any line changes. */
  function Incremented(s: seq<Product>, id: string): (r: seq<Product>)
    ensures |r| == |s|
    ensures forall i :: 0 <= i < |s| ==>
      r[i] == s[i].(quantity := if s[i].id == id then s[i].quantity + 1 else s[i].quantity)
  {
    if s == [] then [] else [IncrementLine(s[0], id)] + Incremented(s[1..], id)
  }

  /** The list decrement(id) computes: same lines in the same order, and every
      line carrying `id` with a quantity above 1 one unit less. */
  function Decremented(s: seq<Product>, id: string): (r: seq<Product>)
    ensures |r| == |s|
    ensures forall i :: 0 <= i < |s| ==>
      r[i] == s[i].(quantity := if s[i].id == id && s[i].quantity > 1 then s[i].quantity - 1 else s[i].quantity)
  {
    if s == [] then [] else [DecrementLine(s[0], id)] + Decremented(s[1..], id)
  }

  /** The list addToCart(item) computes: if a line with the item's id exists,
      the cart increment(item.id) would leave; otherwise the old lines followed
      by one new line of quantity 1. */
  function AddedToCart(s: seq<Product>, item: CatalogItem): (r: seq<Product>)
    ensures item.id in Ids(s) ==> r == Incremented(s, item.id)
    ensures item.id !in Ids(s) ==>
      |r| == |s| + 1 && r[..|s|] == s &&
      r[|s|] == Product(item.id, item.title, item.imageUrl, item.price, 1)
  {
    match Find(s, item.id)
    case Some(checkProduct) => Incremented(s, checkProduct.id)
    case None => s + [NewLine(item)]
  }

  // ---------------------------------------------------------------------------
  // Properties of the cart rules

  /** Neither increment nor decrement changes which lines there are or their order. */
  lemma UpdatesKeepIds(s: seq<Product>, id: string)
    ensures Ids(Incremented(s, id)) == Ids(s)
    ensures Ids(Decremented(s, id)) == Ids(s)
  {
    assert forall i :: 0 <= i < |s| ==> Ids(Incremented(s, id))[i] == Ids(s)[i];
    assert forall i :: 0 <= i < |s| ==> Ids(Decremented(s, id))[i] == Ids(s)[i];
  }

  /** addToCart keeps the existing lines in order and appends the item's id
      exactly when it was not there yet. */
  lemma AddToCartIds(s: seq<Product>, item: CatalogItem)
    ensures Ids(AddedToCart(s, item)) == if item.id in Ids(s) then Ids(s) else Ids(s) + [item.id]
  {
    var r := AddedToCart(s, item);
    if item.id in Ids(s) {
      UpdatesKeepIds(s, item.id);
    } else {
      assert forall i :: 0 <= i < |r| ==> Ids(r)[i] == (Ids(s) + [item.id])[i];
    }
  }

  /** increment or decrement of an id that no line carries leaves the cart as it was. */
  lemma NoMatchIsNoOp(s: seq<Product>, id: string)
    requires id !in Ids(s)
    ensures Incremented(s, id) == s
    ensures Decremented(s, id) == s
  {
    assert forall i :: 0 <= i < |s| ==> s[i].id != id by {
      forall i | 0 <= i < |s| ensures s[i].id != id {
        assert Ids(s)[i] == s[i].id;
      }
    }
  }

  /** At the floor decrement does nothing: if every line carrying `id` is at
      quantity 1 (or there is none), the cart is unchanged; the second
      ensures, a consequence of the first, spells out that decrementing again
      stays put. */
  lemma DecrementAtFloor(s: seq<Product>, id: string)
    requires forall i :: 0 <= i < |s| && s[i].id == id ==> s[i].quantity <= 1
    ensures Decremented(s, id) == s
    ensures Decremented(Decremented(s, id), id) == Decremented(s, id)
  {
  }

  /** Decrement undoes increment on any cart whose quantities are at least 1. */
  lemma DecrementUndoesIncrement(s: seq<Product>, id: string)
    requires PositiveQuantities(s)
    ensures Decremented(Incremented(s, id), id) == s
  {
  }

  /** Increment undoes decrement when no line carrying `id` is at the floor. */
  lemma IncrementUndoesDecrement(s: seq<Product>, id: string)
    requires forall i :: 0 <= i < |s| && s[i].id == id ==> s[i].quantity > 1
    ensures Incremented(Decremented(s, id), id) == s
  {
  }

  lemma IncrementPreservesValid(s: seq<Product>, id: string)
    requires Valid(s)
    ensures Valid(Incremented(s, id))
  {
  }

  lemma DecrementPreservesValid(s: seq<Product>, id: string)
    requires Valid(s)
    ensures Valid(Decremented(s, id))
  {
  }

  /** addToCart keeps ids distinct and quantities at least 1. */
  lemma AddToCartPreservesValid(s: seq<Product>, item: CatalogItem)
    requires Valid(s)
    ensures Valid(AddedToCart(s, item))
  {
    if item.id !in Ids(s) {
      var r := AddedToCart(s, item);
      forall i, j | 0 <= i < j < |r| ensures r[i].id != r[j].id {
        if j == |s| {
          assert r[i] == s[i] && Ids(s)[i] == s[i].id;
        }
      }
    }
  }

  // Quantities as seen through find

  lemma {:induction false} FindIncremented(s: seq<Product>, x: string, id: string)
    ensures Find(Incremented(s, x), id) ==
      if Find(s, id).Some? then Some(IncrementLine(Find(s, id).value, x)) else None
  {
    if s != [] {
      assert Incremented(s, x)[1..] == Incremented(s[1..], x);
      FindIncremented(s[1..], x, id);
    }
  }

  lemma {:induction false} FindDecremented(s: seq<Product>, x: string, id: string)
    ensures Find(Decremented(s, x), id) ==
      if Find(s, id).Some? then Some(DecrementLine(Find(s, id).value, x)) else None
  {
    if s != [] {
      assert Decremented(s, x)[1..] == Decremented(s[1..], x);
      FindDecremented(s[1..], x, id);
    }
  }

  lemma {:induction false} FindAppended(s: seq<Product>, p: Product, id: string)
    ensures Find(s + [p], id) ==
      if Find(s, id).Some? then Find(s, id) else if p.id == id then Some(p) else None
  {
    if s != [] {
      assert (s + [p])[1..] == s[1..] + [p];
      FindAppended(s[1..], p, id);
    }
  }

  /** increment(x) raises the quantity of x by one if x is in the cart, and
      leaves the quantity of every other id alone. */
  lemma QuantityAfterIncrement(s: seq<Product>, x: string, id: string)
    ensures QuantityOf(Incremented(s, x), id) ==
      QuantityOf(s, id) + (if x == id && id in Ids(s) then 1 else 0)
  {
    FindIncremented(s, x, id);
  }

  /** decrement(x) lowers the quantity of x by exactly one when it is above 1,
      keeps it at 1 otherwise, and leaves every other id alone. */
  lemma QuantityAfterDecrement(s: seq<Product>, x: string, id: string)
    ensures QuantityOf(Decremented(s, x), id) ==
      if x == id && QuantityOf(s, id) > 1 then QuantityOf(s, id) - 1 else QuantityOf(s, id)
  {
    FindDecremented(s, x, id);
  }

  /** addToCart(item) raises the quantity of item.id by one, whether the line
      is new (0 to 1) or not, and leaves every other id alone. */
  lemma QuantityAfterAddToCart(s: seq<Product>, item: CatalogItem, id: string)
    ensures QuantityOf(AddedToCart(s, item), id) ==
      QuantityOf(s, id) + (if item.id == id then 1 else 0)
  {
    if item.id in Ids(s) {
      QuantityAfterIncrement(s, item.id, id);
    } else {
      assert AddedToCart(s, item) == s + [NewLine(item)];
      FindAppended(s, NewLine(item), id);
    }
  }

  // ---------------------------------------------------------------------------
  // The provider's state

  /** CartProvider: the `products` state and the three callbacks that replace it. */
  class CartProvider {
    var products: seq<Product>

    /** `useState<Product[]>([])`. */
    constructor ()
      ensures products == []
    {
      products := [];
    }

    /** loadProducts: a stored list (None when getItem found nothing) replaces
        the state; otherwise the state stays as it is. */
    method LoadProducts(productList: Option<seq<Product>>)
      modifies this
      ensures products == if productList.Some? then productList.value else old(products)
    {
      if productList.Some? {
        products := productList.value;
      }
    }

    method AddToCart(product: CatalogItem)
      modifies this
      ensures products == AddedToCart(old(products), product)
      ensures Valid(old(products)) ==> Valid(products)
      ensures old(QuantityOf(products, product.id)) + 1 == QuantityOf(products, product.id)
    {
      ghost var before := products;
      if Valid(before) {
        AddToCartPreservesValid(before, product);
      }
      QuantityAfterAddToCart(before, product, product.id);
      var checkProduct := Find(products, product.id);
      if checkProduct.Some? {
        var increasedProducts := Incremented(products, checkProduct.value.id);
        products := increasedProducts;
        return;
      }
      products := products + [NewLine(product)];
    }

    method Increment(id: string)
      modifies this
      ensures products == Incremented(old(products), id)
      ensures Ids(products) == old(Ids(products))
      ensures Valid(old(products)) ==> Valid(products)
    {
      ghost var before := products;
      UpdatesKeepIds(before, id);
      if Valid(before) {
        IncrementPreservesValid(before, id);
      }
      var increasedProducts := Incremented(products, id);
      products := increasedProducts;
    }

    method Decrement(id: string)
      modifies this
      ensures products == Decremented(old(products), id)
      ensures Ids(products) == old(Ids(products))
      ensures Valid(old(products)) ==> Valid(products)
    {
      ghost var before := products;
      UpdatesKeepIds(before, id);
      if Valid(before) {
        DecrementPreservesValid(before, id);
      }
      var decreasedProducts := Decremented(products, id);
      products := decreasedProducts;
    }
  }

  /** useCart: the provider in scope, or the usage error when there is none. */
  function UseCart(context: CartProvider?): (r: Result<CartProvider, string>)
    ensures r.Success? <==> context != null
    ensures r.Success? ==> r.value == context
    ensures r.Failure? ==> r.error == USE_CART_ERROR
  {
    if context == null then Failure(USE_CART_ERROR) else Success(context as CartProvider)
  }
}
