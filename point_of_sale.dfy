/**
 * The point-of-sale page: the product catalogue filtered by category and
 * the cart handlers, each a function from the previous cart to the next.
 * Prices are whole cents.
 */
module PointOfSale {
  import opened Seqs

  datatype Product = Product(id: string, name: string, priceCents: int, category: string)

  /** A cart line; the product's image and category, copied in by the spread, are left out. */
  datatype CartItem = CartItem(id: string, name: string, priceCents: int, quantity: int)

  const All := "all"

  /** The filter predicate "the product is in category `c`". */
  function OfCategory(c: string): Product -> bool
  {
    (p: Product) => p.category == c
  }

  /** "all" shows the whole catalogue, any other category the products of that category, in catalogue order. */
  function FilteredProducts(products: seq<Product>, selected: string): (r: seq<Product>)
    ensures selected == All ==> r == products
    ensures selected != All ==> forall p :: p in r <==> p in products && p.category == selected
    ensures selected != All ==> r == Filter(products, OfCategory(selected))
    ensures |r| <= |products|
  {
    if selected == All then products
    else
      var r := Filter(products, OfCategory(selected));
      forall p ensures p in r <==> p in products && p.category == selected {
        FilterMembership(products, OfCategory(selected), p);
      }
      r
  }

  /** The cart has at most one line per product id. */
  predicate UniqueIds(cart: seq<CartItem>)
  {
    forall i, j :: 0 <= i < j < |cart| ==> cart[i].id != cart[j].id
  }

  /** Every line holds at least one unit. */
  predicate PositiveQuantities(cart: seq<CartItem>)
  {
    forall i :: 0 <= i < |cart| ==> cart[i].quantity >= 1
  }

  predicate WellFormed(cart: seq<CartItem>)
  {
    UniqueIds(cart) && PositiveQuantities(cart)
  }

  predicate HasLine(cart: seq<CartItem>, id: string)
  {
    exists i :: 0 <= i < |cart| && cart[i].id == id
  }

  /** `addToCart`: one more unit on the product's line, or a new line with quantity 1 at the end. */
  function AddToCart(cart: seq<CartItem>, p: Product): (r: seq<CartItem>)
    ensures !HasLine(cart, p.id) ==> r == cart + [CartItem(p.id, p.name, p.priceCents, 1)]
    ensures HasLine(cart, p.id) ==> |r| == |cart| && forall i :: 0 <= i < |cart| ==>
              r[i] == if cart[i].id == p.id then cart[i].(quantity := cart[i].quantity + 1) else cart[i]
  {
    if Find(cart, (item: CartItem) => item.id == p.id).Some? then
      Map(cart, (item: CartItem) => if item.id == p.id then item.(quantity := item.quantity + 1) else item)
    else
      cart + [CartItem(p.id, p.name, p.priceCents, 1)]
  }

  /** The filter predicate "the line is not for `id`". */
  function NotFor(id: string): CartItem -> bool
  {
    (item: CartItem) => item.id != id
  }

  /** `removeItem`: drops every line with that id, keeping the others in order. */
  function RemoveItem(cart: seq<CartItem>, id: string): (r: seq<CartItem>)
    ensures forall x :: x in r <==> x in cart && x.id != id
    ensures !HasLine(r, id)
    ensures r == Filter(cart, NotFor(id))
  {
    var r := Filter(cart, NotFor(id));
    forall x ensures x in r <==> x in cart && x.id != id {
      FilterMembership(cart, NotFor(id), x);
    }
    r
  }

  /** `updateQuantity`: a quantity of zero or less removes the line, any other replaces that line's quantity. */
  function UpdateQuantity(cart: seq<CartItem>, id: string, quantity: int): (r: seq<CartItem>)
    ensures quantity <= 0 ==> r == RemoveItem(cart, id)
    ensures quantity > 0 ==> |r| == |cart| && forall i :: 0 <= i < |cart| ==>
              r[i] == if cart[i].id == id then cart[i].(quantity := quantity) else cart[i]
  {
    if quantity <= 0 then RemoveItem(cart, id)
    else Map(cart, (item: CartItem) => if item.id == id then item.(quantity := quantity) else item)
  }

  /** The amount charged: the sum of price times quantity over the lines. */
  function CartTotal(cart: seq<CartItem>): int
  {
    if cart == [] then 0 else cart[0].priceCents * cart[0].quantity + CartTotal(cart[1..])
  }

  /** `handleCheckout`: the total to charge, and the emptied cart. */
  function Checkout(cart: seq<CartItem>): (r: (int, seq<CartItem>))
    ensures r.0 == CartTotal(cart) && r.1 == []
  {
    (CartTotal(cart), [])
  }

  // ---------------------------------------------------------------------------
  // Invariants and totals

  lemma AddToCartWellFormed(cart: seq<CartItem>, p: Product)
    requires WellFormed(cart)
    ensures WellFormed(AddToCart(cart, p))
    ensures HasLine(AddToCart(cart, p), p.id)
  {
    if !HasLine(cart, p.id) {
      assert AddToCart(cart, p)[|cart|].id == p.id;
    } else {
      var i :| 0 <= i < |cart| && cart[i].id == p.id;
      assert AddToCart(cart, p)[i].id == p.id;
    }
  }

  lemma UpdateQuantityWellFormed(cart: seq<CartItem>, id: string, quantity: int)
    requires WellFormed(cart)
    ensures WellFormed(UpdateQuantity(cart, id, quantity))
  {
    if quantity <= 0 {
      RemoveWellFormed(cart, id);
    }
  }

  lemma {:induction false} RemoveWellFormed(cart: seq<CartItem>, id: string)
    requires WellFormed(cart)
    ensures WellFormed(RemoveItem(cart, id))
  {
    var r := RemoveItem(cart, id);
    FilterUniqueIds(cart, NotFor(id));
    forall i | 0 <= i < |r| ensures r[i].quantity >= 1 {
      assert r[i] in cart;
    }
  }

  lemma {:induction false} FilterUniqueIds(cart: seq<CartItem>, f: CartItem -> bool)
    requires UniqueIds(cart)
    ensures UniqueIds(Filter(cart, f))
  {
    if cart != [] {
      FilterUniqueIds(cart[1..], f);
      var rest := Filter(cart[1..], f);
      forall x | x in rest ensures x.id != cart[0].id {
        assert x in cart[1..];
        var m :| 0 <= m < |cart[1..]| && cart[1..][m] == x;
        assert cart[m + 1] == x;
      }
      if f(cart[0]) {
        var r := Filter(cart, f);
        assert r == [cart[0]] + rest;
        forall i, j | 0 <= i < j < |r| ensures r[i].id != r[j].id {
          if i == 0 {
            assert r[j] == rest[j - 1] && r[j] in rest;
          } else {
            assert r[i] == rest[i - 1] && r[j] == rest[j - 1];
          }
        }
      }
    }
  }

  /** The price of the line with that id, or 0 when there is none. */
  function LinePrice(cart: seq<CartItem>, id: string): int
  {
    if cart == [] then 0
    else if cart[0].id == id then cart[0].priceCents
    else LinePrice(cart[1..], id)
  }

  /** One more unit of a line adds that line's price to the total. */
  lemma {:induction false} BumpTotal(cart: seq<CartItem>, id: string)
    requires UniqueIds(cart)
    ensures CartTotal(Map(cart, (item: CartItem) => if item.id == id then item.(quantity := item.quantity + 1) else item))
         == CartTotal(cart) + LinePrice(cart, id)
  {
    var f := (item: CartItem) => if item.id == id then item.(quantity := item.quantity + 1) else item;
    if cart != [] {
      assert Map(cart, f)[1..] == Map(cart[1..], f);
      BumpTotal(cart[1..], id);
      if cart[0].id == id {
        NoLineNoPrice(cart[1..], id);
        NoLineUnchanged(cart[1..], id);
      }
    }
  }

  lemma {:induction false} NoLineNoPrice(cart: seq<CartItem>, id: string)
    requires forall i :: 0 <= i < |cart| ==> cart[i].id != id
    ensures LinePrice(cart, id) == 0
  {
    if cart != [] {
      NoLineNoPrice(cart[1..], id);
    }
  }

  lemma NoLineUnchanged(cart: seq<CartItem>, id: string)
    requires forall i :: 0 <= i < |cart| ==> cart[i].id != id
    ensures Map(cart, (item: CartItem) => if item.id == id then item.(quantity := item.quantity + 1) else item) == cart
  {
  }

  lemma {:induction false} CartTotalAppend(a: seq<CartItem>, b: seq<CartItem>)
    ensures CartTotal(a + b) == CartTotal(a) + CartTotal(b)
  {
    if a == [] {
      assert a + b == b;
    } else {
      assert (a + b)[1..] == a[1..] + b;
      CartTotalAppend(a[1..], b);
    }
  }

  /** Adding a product raises the checkout total by one unit price: the line's, or the product's for a new line. */
  lemma AddToCartTotal(cart: seq<CartItem>, p: Product)
    requires UniqueIds(cart)
    ensures CartTotal(AddToCart(cart, p)) == CartTotal(cart) + (if HasLine(cart, p.id) then LinePrice(cart, p.id) else p.priceCents)
  {
    if HasLine(cart, p.id) {
      BumpTotal(cart, p.id);
    } else {
      CartTotalAppend(cart, [CartItem(p.id, p.name, p.priceCents, 1)]);
    }
  }

  /** Removing a line takes exactly its price times quantity off the total. */
  lemma {:induction false} RemoveItemTotal(cart: seq<CartItem>, id: string)
    requires UniqueIds(cart)
    ensures CartTotal(RemoveItem(cart, id)) == CartTotal(cart) - LineAmount(cart, id)
  {
    if cart != [] {
      assert UniqueIds(cart[1..]);
      RemoveItemTotal(cart[1..], id);
      assert Filter(cart, NotFor(id)) == (if NotFor(id)(cart[0]) then [cart[0]] else []) + Filter(cart[1..], NotFor(id));
      if cart[0].id == id {
        assert forall i :: 0 <= i < |cart[1..]| ==> cart[1..][i].id != id;
        NoLineNoAmount(cart[1..], id);
        FilterAll(cart[1..], NotFor(id));
        assert RemoveItem(cart, id) == cart[1..];
      } else {
        assert RemoveItem(cart, id) == [cart[0]] + RemoveItem(cart[1..], id);
      }
    }
  }

  /** Price times quantity of the line with that id, or 0. */
  function LineAmount(cart: seq<CartItem>, id: string): int
  {
    if cart == [] then 0
    else if cart[0].id == id then cart[0].priceCents * cart[0].quantity
    else LineAmount(cart[1..], id)
  }

  lemma {:induction false} NoLineNoAmount(cart: seq<CartItem>, id: string)
    requires forall i :: 0 <= i < |cart| ==> cart[i].id != id
    ensures LineAmount(cart, id) == 0
  {
    if cart != [] {
      NoLineNoAmount(cart[1..], id);
    }
  }
}
