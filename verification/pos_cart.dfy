/** The checkout screen's cart. Each cart line is a snapshot of the product taken when it was
    first added, plus the quantity in the cart; the screen keeps that quantity between 1 and the
    stock it knows, and on confirmation sends the lines in cart order. */
module PosCart {
  import opened Outcomes
  import opened Vocabulary
  import opened Sums
  import opened Store
  import opened Sale

  /** A product as the search returns it. */
  datatype ShelfProduct = ShelfProduct(id: ProductId, name: string, salePrice: int, stock: int)

  /** A cart line: the product snapshot and the quantity in the cart. */
  datatype CartItem = CartItem(id: ProductId, name: string, salePrice: int, stock: int, cartQuantity: int)

  /** Position of the first line for product `id`. */
  function FindItem(cart: seq<CartItem>, id: ProductId): (r: Option<nat>)
    ensures r.Some? ==> r.value < |cart| && cart[r.value].id == id
    ensures r.Some? ==> forall i :: 0 <= i < r.value ==> cart[i].id != id
    ensures r.None? <==> forall i :: 0 <= i < |cart| ==> cart[i].id != id
  {
    FindKey(cart, (it: CartItem) => it.id, id)
  }

  /** The two promises the screen keeps: one line per product, and every quantity between 1 and
      the line's recorded stock. */
  predicate CartOk(cart: seq<CartItem>)
  {
    && (forall i, j :: 0 <= i < j < |cart| ==> cart[i].id != cart[j].id)
    && (forall i :: 0 <= i < |cart| ==> 1 <= cart[i].cartQuantity <= cart[i].stock)
  }

  /** The cart with one more unit on every line of product `id`. */
  function Bump(cart: seq<CartItem>, id: ProductId): (r: seq<CartItem>)
    ensures |r| == |cart|
    ensures forall i :: 0 <= i < |cart| ==>
      r[i] == if cart[i].id == id then cart[i].(cartQuantity := cart[i].cartQuantity + 1) else cart[i]
  {
    seq(|cart|, i requires 0 <= i < |cart| => if cart[i].id == id then cart[i].(cartQuantity := cart[i].cartQuantity + 1) else cart[i])
  }

  /** `addToCart`: out of stock, or already at the product's stock, leaves the cart as it was;
      a product already in the cart gets one more unit; a new one is appended with quantity 1. */
  function AddToCart(cart: seq<CartItem>, p: ShelfProduct): (r: seq<CartItem>)
    ensures p.stock <= 0 ==> r == cart
    ensures p.stock > 0 && FindItem(cart, p.id).Some? && cart[FindItem(cart, p.id).value].cartQuantity >= p.stock ==> r == cart
    ensures p.stock > 0 && FindItem(cart, p.id).Some? && cart[FindItem(cart, p.id).value].cartQuantity < p.stock ==>
      |r| == |cart| && forall i :: 0 <= i < |cart| ==>
        r[i] == if cart[i].id == p.id then cart[i].(cartQuantity := cart[i].cartQuantity + 1) else cart[i]
    ensures p.stock > 0 && FindItem(cart, p.id).None? ==>
      r == cart + [CartItem(p.id, p.name, p.salePrice, p.stock, 1)]
  {
    if p.stock <= 0 then cart
    else
      var found := FindItem(cart, p.id);
      if found.Some? then
        if cart[found.value].cartQuantity >= p.stock then cart else Bump(cart, p.id)
      else cart + [CartItem(p.id, p.name, p.salePrice, p.stock, 1)]
  }

  /** While the product's stock is the one its cart line recorded, adding keeps the cart's
      promises. */
  lemma AddToCartKeepsCartOk(cart: seq<CartItem>, p: ShelfProduct)
    requires CartOk(cart)
    requires forall i :: 0 <= i < |cart| && cart[i].id == p.id ==> cart[i].stock == p.stock
    ensures CartOk(AddToCart(cart, p))
  {
    if p.stock > 0 {
      var found := FindItem(cart, p.id);
      if found.None? {
        AppendKeepsCartOk(cart, CartItem(p.id, p.name, p.salePrice, p.stock, 1));
      } else if cart[found.value].cartQuantity < p.stock {
        BumpKeepsCartOk(cart, p.id, found.value);
      }
    }
  }

  /** A line for a product not yet in the cart, with a quantity within its stock, keeps the
      cart's promises. */
  lemma AppendKeepsCartOk(cart: seq<CartItem>, x: CartItem)
    requires CartOk(cart) && 1 <= x.cartQuantity <= x.stock
    requires forall i :: 0 <= i < |cart| ==> cart[i].id != x.id
    ensures CartOk(cart + [x])
  {
    assert forall i :: 0 <= i < |cart| ==> (cart + [x])[i] == cart[i];
  }

  /** One more unit on the line of product `id`, below that line's stock, keeps the cart's
      promises. */
  lemma BumpKeepsCartOk(cart: seq<CartItem>, id: ProductId, k: nat)
    requires CartOk(cart) && k < |cart| && cart[k].id == id && cart[k].cartQuantity < cart[k].stock
    ensures CartOk(Bump(cart, id))
  {
  }

  /** The line keeps the stock it recorded on its first addition, while the check uses the
      stock the latest search returned: after the stock grew, the cart can hold more than the
      line's recorded stock. */
  lemma StaleStockExample()
    ensures var cart := [CartItem("a", "A", 10, 1, 1)];
      var r := AddToCart(cart, ShelfProduct("a", "A", 10, 5));
      CartOk(cart) && !CartOk(r) && r[0].cartQuantity == 2 && r[0].stock == 1
  {
    var cart := [CartItem("a", "A", 10, 1, 1)];
    assert FindItem(cart, "a") == Some(0);
  }

  /** `updateQuantity`: a change is applied only if the new quantity stays within 1 and the
      line's recorded stock; otherwise the line is kept. */
  function UpdateQuantity(cart: seq<CartItem>, id: ProductId, delta: int): (r: seq<CartItem>)
    ensures |r| == |cart|
    ensures forall i :: 0 <= i < |cart| ==> r[i].id == cart[i].id && r[i] == cart[i].(cartQuantity := r[i].cartQuantity)
    ensures forall i :: 0 <= i < |cart| ==>
      r[i].cartQuantity == if cart[i].id == id && 0 < cart[i].cartQuantity + delta <= cart[i].stock
                           then cart[i].cartQuantity + delta else cart[i].cartQuantity
  {
    seq(|cart|, i requires 0 <= i < |cart| =>
      var item := cart[i];
      if item.id == id then
        var q := item.cartQuantity + delta;
        if q > item.stock then item
        else if q <= 0 then item
        else item.(cartQuantity := q)
      else item)
  }

  lemma UpdateQuantityKeepsCartOk(cart: seq<CartItem>, id: ProductId, delta: int)
    requires CartOk(cart)
    ensures CartOk(UpdateQuantity(cart, id, delta))
  {
  }

  /** `removeFromCart`: every line of product `id` goes, the rest stay in order. */
  function RemoveFromCart(cart: seq<CartItem>, id: ProductId): (r: seq<CartItem>)
    ensures |r| <= |cart|
    ensures forall it :: it in r <==> it in cart && it.id != id
    ensures forall i :: 0 <= i < |r| ==> r[i].id != id
    ensures forall it :: multiset(r)[it] == if it.id == id then 0 else multiset(cart)[it]
  {
    if |cart| == 0 then []
    else
      var rest := RemoveFromCart(cart[1..], id);
      assert cart == [cart[0]] + cart[1..];
      assert multiset(cart) == multiset{cart[0]} + multiset(cart[1..]);
      if cart[0].id == id then rest
      else
        assert multiset([cart[0]] + rest) == multiset{cart[0]} + multiset(rest);
        [cart[0]] + rest
  }

  /** Removing lines keeps the order of those that stay: the result is a subsequence. */
  predicate Subsequence(a: seq<CartItem>, b: seq<CartItem>)
    decreases |b|
  {
    if |a| == 0 then true
    else if |b| == 0 then false
    else if a[0] == b[0] then Subsequence(a[1..], b[1..])
    else Subsequence(a, b[1..])
  }

  lemma {:induction false} RemoveKeepsOrder(cart: seq<CartItem>, id: ProductId)
    ensures Subsequence(RemoveFromCart(cart, id), cart)
    decreases |cart|
  {
    if |cart| > 0 {
      RemoveKeepsOrder(cart[1..], id);
      var rest := RemoveFromCart(cart[1..], id);
      if cart[0].id != id {
        assert ([cart[0]] + rest)[1..] == rest;
      } else if |rest| > 0 {
        assert rest[0] in rest;
      }
    }
  }

  lemma {:induction false} RemoveKeepsCartOk(cart: seq<CartItem>, id: ProductId)
    requires CartOk(cart)
    ensures CartOk(RemoveFromCart(cart, id))
    decreases |cart|
  {
    if |cart| > 0 {
      CartOkTail(cart);
      RemoveKeepsCartOk(cart[1..], id);
      var rest := RemoveFromCart(cart[1..], id);
      if cart[0].id != id {
        CartOkCons(cart[0], rest);
      }
    }
  }

  /** The tail of a valid cart is valid and holds no other line of the head's product. */
  lemma CartOkTail(cart: seq<CartItem>)
    requires CartOk(cart) && |cart| > 0
    ensures CartOk(cart[1..])
    ensures forall it :: it in cart[1..] ==> it.id != cart[0].id
    ensures 1 <= cart[0].cartQuantity <= cart[0].stock
  {
    forall it | it in cart[1..]
      ensures it.id != cart[0].id
    {
      var k :| 0 <= k < |cart[1..]| && cart[1..][k] == it;
      assert cart[k + 1] == it;
    }
  }

  /** A valid line in front of a valid cart that lacks its product gives a valid cart. */
  lemma CartOkCons(x: CartItem, rest: seq<CartItem>)
    requires CartOk(rest) && 1 <= x.cartQuantity <= x.stock
    requires forall it :: it in rest ==> it.id != x.id
    ensures CartOk([x] + rest)
  {
    var r := [x] + rest;
    forall i, j | 0 <= i < j < |r|
      ensures r[i].id != r[j].id
    {
      assert r[j] == rest[j - 1];
      if i > 0 {
        assert r[i] == rest[i - 1];
      } else {
        assert rest[j - 1] in rest;
      }
    }
  }

  function LineTotal(it: CartItem): int
  {
    it.salePrice * it.cartQuantity
  }

  /** `totalSale`. */
  function TotalSale(cart: seq<CartItem>): int
  {
    Sum(cart, LineTotal)
  }

  /** `changeDue`: with no amount typed, nothing is due back; otherwise the amount less the
      total, which is negative while the amount falls short. */
  function ChangeDue(payment: Option<int>, total: int): (r: int)
    ensures var paid := if payment.Some? then payment.value else 0;
      (paid > 0 ==> r + total == paid) && (paid <= 0 ==> r == 0)
  {
    var paid := if payment.Some? then payment.value else 0;
    if paid > 0 then paid - total else 0
  }

  datatype ConfirmDecision = NoOp | RejectShortPayment | Send(items: seq<SaleItem>, pay: ContainerKey)

  function ToSaleItems(cart: seq<CartItem>): (items: seq<SaleItem>)
    ensures |items| == |cart|
    ensures forall i :: 0 <= i < |cart| ==> items[i] == SaleItem(cart[i].id, cart[i].cartQuantity, cart[i].salePrice)
  {
    seq(|cart|, i requires 0 <= i < |cart| => SaleItem(cart[i].id, cart[i].cartQuantity, cart[i].salePrice))
  }

  /** `handleConfirm`: an empty cart does nothing; a cash payment that was typed but falls short
      is refused; otherwise the lines go out in cart order with their sale prices. */
  function HandleConfirm(cart: seq<CartItem>, pay: ContainerKey, payment: Option<int>): (d: ConfirmDecision)
    ensures |cart| == 0 <==> d == NoOp
    ensures var paid := if payment.Some? then payment.value else 0;
      d == RejectShortPayment <==> |cart| > 0 && pay == Efectivo && 0 < paid < TotalSale(cart)
    ensures d.Send? ==> d.items == ToSaleItems(cart) && d.pay == pay
  {
    var paid := if payment.Some? then payment.value else 0;
    if |cart| == 0 then NoOp
    else if pay == Efectivo && paid > 0 && paid < TotalSale(cart) then RejectShortPayment
    else Send(ToSaleItems(cart), pay)
  }

  lemma {:induction false} SaleTotalOfCart(cart: seq<CartItem>)
    ensures SaleTotal(ToSaleItems(cart)) == TotalSale(cart)
    decreases |cart|
  {
    if |cart| > 0 {
      var n := |cart| - 1;
      SaleTotalOfCart(cart[..n]);
      assert ToSaleItems(cart)[..n] == ToSaleItems(cart[..n]);
    }
  }

  lemma {:induction false} PositiveCartTotal(cart: seq<CartItem>)
    requires |cart| > 0 && CartOk(cart)
    requires forall i :: 0 <= i < |cart| ==> cart[i].salePrice > 0
    ensures TotalSale(cart) > 0
    decreases |cart|
  {
    var n := |cart| - 1;
    assert 1 <= cart[n].cartQuantity;
    assert LineTotal(cart[n]) > 0;
    assert TotalSale(cart) == TotalSale(cart[..n]) + LineTotal(cart[n]);
    if n > 0 {
      assert CartOk(cart[..n]);
      PositiveCartTotal(cart[..n]);
    } else {
      assert cart[..n] == [];
    }
  }

  /** What the screen sends carries the total the screen showed, so a well-formed cart of
      positively priced products always passes the server's total check. */
  lemma ConfirmedCartPassesTotalCheck(cart: seq<CartItem>, pay: ContainerKey, payment: Option<int>)
    requires HandleConfirm(cart, pay, payment).Send?
    ensures SaleTotal(HandleConfirm(cart, pay, payment).items) == TotalSale(cart)
    ensures CartOk(cart) && (forall i :: 0 <= i < |cart| ==> cart[i].salePrice > 0) ==>
      SaleTotal(HandleConfirm(cart, pay, payment).items) > 0
  {
    SaleTotalOfCart(cart);
    if CartOk(cart) && (forall i :: 0 <= i < |cart| ==> cart[i].salePrice > 0) {
      PositiveCartTotal(cart);
    }
  }
}
