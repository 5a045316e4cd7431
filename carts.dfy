/** The cart service: one cart per user, a list of lines keyed by product id,
    validated against the product catalog on every addition and update. */
module Carts {
  import opened Common

  /** What the catalog lookup returns for one product id. */
  datatype ProductInfo = ProductInfo(
    name: string,
    unit: string,
    price: Money,
    stockQuantity: int,
    isActive: bool)

  /** The catalog as the cart service sees it: a product id that is not a key is a
      lookup that returned null; the product's id is the key it was found under. */
  type Catalog = map<ProductId, ProductInfo>

  /** One cart line: a snapshot of the product's name, unit and price when it was added. */
  datatype CartItem = CartItem(
    productId: ProductId,
    productName: string,
    productUnit: string,
    quantity: int,
    price: Money)

  datatype Cart = Cart(userId: UserId, items: seq<CartItem>)

  function LineTotal(item: CartItem): Money {
    item.quantity * item.price
  }

  /** The cart's total amount: the sum of quantity times price over its lines. */
  ghost function TotalAmount(items: seq<CartItem>): Money {
    if items == [] then 0 else TotalAmount(items[..|items| - 1]) + LineTotal(items[|items| - 1])
  }

  /** No two lines of the cart are for the same product. */
  ghost predicate DistinctIds(items: seq<CartItem>) {
    forall i, j :: 0 <= i < j < |items| ==> items[i].productId != items[j].productId
  }

  /** The position of the first line for product `pid`, as the stream filter and
      findFirst of the service locate it. */
  function IndexOf(items: seq<CartItem>, pid: ProductId): (r: Option<nat>)
    ensures r.Some? ==> r.value < |items| && items[r.value].productId == pid
    ensures r.Some? ==> forall j :: 0 <= j < r.value ==> items[j].productId != pid
    ensures r.None? ==> forall j :: 0 <= j < |items| ==> items[j].productId != pid
  {
    if items == [] then None
    else if items[0].productId == pid then Some(0)
    else match IndexOf(items[1..], pid)
      case None => None
      case Some(k) => Some(k + 1)
  }

  /** The cart read as a map from product id to line: the line for `pid`, if any. */
  function LineOf(items: seq<CartItem>, pid: ProductId): Option<CartItem> {
    match IndexOf(items, pid)
    case Some(k) => Some(items[k])
    case None => None
  }

  /** The lines of the user's cart, where a missing cart reads as the empty cart
      that get-or-create would make. */
  function ItemsOf(carts: map<UserId, Cart>, userId: UserId): seq<CartItem> {
    if userId in carts then carts[userId].items else []
  }

  /** The lines after adding `quantity` of product `pid`: merged into the existing
      line, or appended as a new line copying the catalog's name, unit and price. */
  function AddLine(items: seq<CartItem>, pid: ProductId, info: ProductInfo, quantity: int): seq<CartItem> {
    match IndexOf(items, pid)
    case Some(k) => items[k := items[k].(quantity := items[k].quantity + quantity)]
    case None => items + [CartItem(pid, info.name, info.unit, quantity, info.price)]
  }

  /** The lines after overwriting the quantity and price of the line for `pid`. */
  function SetLine(items: seq<CartItem>, pid: ProductId, quantity: int, price: Money): seq<CartItem> {
    match IndexOf(items, pid)
    case Some(k) => items[k := items[k].(quantity := quantity, price := price)]
    case None => items
  }

  /** The lines after removing the line for `pid`, if there is one. */
  function RemoveLine(items: seq<CartItem>, pid: ProductId): seq<CartItem> {
    match IndexOf(items, pid)
    case Some(k) => items[..k] + items[k + 1..]
    case None => items
  }

  // ---------------------------------------------------------------------------
  // Lemmas about line lookup

  /** Lookup depends on the product ids of the lines only. */
  lemma {:induction false} IndexOfSameIds(a: seq<CartItem>, b: seq<CartItem>, pid: ProductId)
    requires |a| == |b|
    requires forall i :: 0 <= i < |a| ==> a[i].productId == b[i].productId
    ensures IndexOf(a, pid) == IndexOf(b, pid)
  {
    if a != [] && a[0].productId != pid {
      IndexOfSameIds(a[1..], b[1..], pid);
    }
  }

  /** Appending a line does not change where an earlier line is found, and finds
      the new line when no earlier line has its product. */
  lemma IndexOfAppend(items: seq<CartItem>, x: CartItem, pid: ProductId)
    ensures IndexOf(items + [x], pid) ==
      if IndexOf(items, pid).Some? then IndexOf(items, pid)
      else if x.productId == pid then Some(|items|)
      else None
  {
    assert forall j :: 0 <= j < |items| ==> (items + [x])[j] == items[j];
    assert (items + [x])[|items|] == x;
  }

  // ---------------------------------------------------------------------------
  // Lemmas about the total amount

  lemma {:induction false} TotalAppend(a: seq<CartItem>, b: seq<CartItem>)
    ensures TotalAmount(a + b) == TotalAmount(a) + TotalAmount(b)
  {
    if b == [] {
      assert a + b == a;
    } else {
      var b' := b[..|b| - 1];
      assert (a + b)[..|a + b| - 1] == a + b';
      TotalAppend(a, b');
    }
  }

  lemma TotalSingle(x: CartItem)
    ensures TotalAmount([x]) == LineTotal(x)
  {
    assert [x][..0] == [];
  }

  /** Replacing one line changes the total by the difference of the two line totals. */
  lemma TotalReplace(items: seq<CartItem>, k: nat, x: CartItem)
    requires k < |items|
    ensures TotalAmount(items[k := x]) == TotalAmount(items) - LineTotal(items[k]) + LineTotal(x)
  {
    var pre, post := items[..k], items[k + 1..];
    assert items == pre + [items[k]] + post;
    assert items[k := x] == pre + [x] + post;
    TotalAppend(pre + [items[k]], post);
    TotalAppend(pre, [items[k]]);
    TotalAppend(pre + [x], post);
    TotalAppend(pre, [x]);
    TotalSingle(x);
    TotalSingle(items[k]);
  }

  /** Removing one line lowers the total by that line's total. */
  lemma TotalRemove(items: seq<CartItem>, k: nat)
    requires k < |items|
    ensures TotalAmount(items[..k] + items[k + 1..]) == TotalAmount(items) - LineTotal(items[k])
  {
    var pre, post := items[..k], items[k + 1..];
    assert items == pre + [items[k]] + post;
    TotalAppend(pre + [items[k]], post);
    TotalAppend(pre, [items[k]]);
    TotalAppend(pre, post);
    TotalSingle(items[k]);
  }

  // ---------------------------------------------------------------------------
  // Adding a product

  /** Adding merges into the product's line (keeping its snapshot name, unit and
      price) or creates a line from the catalog; no other product's line changes. */
  lemma AddLineEffect(items: seq<CartItem>, pid: ProductId, info: ProductInfo, quantity: int, other: ProductId)
    requires other != pid
    ensures LineOf(AddLine(items, pid, info, quantity), pid) ==
      Some(match LineOf(items, pid)
           case Some(line) => line.(quantity := line.quantity + quantity)
           case None => CartItem(pid, info.name, info.unit, quantity, info.price))
    ensures LineOf(AddLine(items, pid, info, quantity), other) == LineOf(items, other)
  {
    var r := AddLine(items, pid, info, quantity);
    match IndexOf(items, pid)
    case Some(k) =>
      IndexOfSameIds(items, r, pid);
      IndexOfSameIds(items, r, other);
    case None =>
      var x := CartItem(pid, info.name, info.unit, quantity, info.price);
      IndexOfAppend(items, x, pid);
      IndexOfAppend(items, x, other);
      if IndexOf(items, other).Some? {
        assert r[IndexOf(items, other).value] == items[IndexOf(items, other).value];
      }
  }

  /** Adding a product already in the cart keeps the number of lines; adding a new
      one appends exactly one line. */
  lemma AddLineLength(items: seq<CartItem>, pid: ProductId, info: ProductInfo, quantity: int)
    ensures |AddLine(items, pid, info, quantity)| == |items| + (if LineOf(items, pid).Some? then 0 else 1)
  {
  }

  /** Adding never creates a second line for a product. */
  lemma AddLinePreservesDistinct(items: seq<CartItem>, pid: ProductId, info: ProductInfo, quantity: int)
    requires DistinctIds(items)
    ensures DistinctIds(AddLine(items, pid, info, quantity))
  {
    var r := AddLine(items, pid, info, quantity);
    if IndexOf(items, pid).None? {
      forall i, j | 0 <= i < j < |r| ensures r[i].productId != r[j].productId {
        if j == |items| {
          assert r[i] == items[i];
        } else {
          assert r[i] == items[i] && r[j] == items[j];
        }
      }
    }
  }

  /** The total grows by the added quantity times the price of the line it lands
      on: the line's own snapshot price when merged, the catalog price when new. */
  lemma AddLineTotal(items: seq<CartItem>, pid: ProductId, info: ProductInfo, quantity: int)
    ensures TotalAmount(AddLine(items, pid, info, quantity)) ==
      TotalAmount(items) + quantity * (match LineOf(items, pid)
                                       case Some(line) => line.price
                                       case None => info.price)
  {
    match IndexOf(items, pid)
    case Some(k) =>
      var line := items[k];
      TotalReplace(items, k, line.(quantity := line.quantity + quantity));
      assert (line.quantity + quantity) * line.price == line.quantity * line.price + quantity * line.price;
    case None =>
      var x := CartItem(pid, info.name, info.unit, quantity, info.price);
      TotalAppend(items, [x]);
      TotalSingle(x);
  }

  /** Adding the same product twice leaves one line for it, holding both quantities. */
  lemma AddTwiceOneLine(items: seq<CartItem>, pid: ProductId, info1: ProductInfo, q1: int, info2: ProductInfo, q2: int)
    requires DistinctIds(items)
    requires LineOf(items, pid).None?
    ensures var r := AddLine(AddLine(items, pid, info1, q1), pid, info2, q2);
      |r| == |items| + 1 && DistinctIds(r) &&
      LineOf(r, pid) == Some(CartItem(pid, info1.name, info1.unit, q1 + q2, info1.price))
  {
    var r1 := AddLine(items, pid, info1, q1);
    AddLineLength(items, pid, info1, q1);
    AddLinePreservesDistinct(items, pid, info1, q1);
    AddLineEffect(items, pid, info1, q1, pid + 1);
    AddLineLength(r1, pid, info2, q2);
    AddLinePreservesDistinct(r1, pid, info2, q2);
    AddLineEffect(r1, pid, info2, q2, pid + 1);
  }

  /** The stock check bounds the amount added, not the merged line: whenever the
      amount passes the check but the line already holds enough that the sum
      exceeds the stock, the merged line holds more than is in stock. */
  lemma MergeMayExceedStock(items: seq<CartItem>, pid: ProductId, info: ProductInfo, amount: int)
    requires LineOf(items, pid).Some?
    requires amount <= info.stockQuantity < LineOf(items, pid).value.quantity + amount
    ensures LineOf(AddLine(items, pid, info, amount), pid).Some?
    ensures LineOf(AddLine(items, pid, info, amount), pid).value.quantity > info.stockQuantity
  {
    AddLineEffect(items, pid, info, amount, pid + 1);
  }

  // ---------------------------------------------------------------------------
  // Updating and removing a line

  /** Setting a line overwrites its quantity and price only, and touches no other line. */
  lemma SetLineEffect(items: seq<CartItem>, pid: ProductId, quantity: int, price: Money, other: ProductId)
    requires other != pid
    ensures LineOf(SetLine(items, pid, quantity, price), pid) ==
      match LineOf(items, pid)
      case Some(line) => Some(line.(quantity := quantity, price := price))
      case None => None
    ensures LineOf(SetLine(items, pid, quantity, price), other) == LineOf(items, other)
    ensures |SetLine(items, pid, quantity, price)| == |items|
  {
    var r := SetLine(items, pid, quantity, price);
    IndexOfSameIds(items, r, pid);
    IndexOfSameIds(items, r, other);
  }

  lemma SetLinePreservesDistinct(items: seq<CartItem>, pid: ProductId, quantity: int, price: Money)
    requires DistinctIds(items)
    ensures DistinctIds(SetLine(items, pid, quantity, price))
  {
  }

  /** The total changes by the new line total minus the old one. */
  lemma SetLineTotal(items: seq<CartItem>, pid: ProductId, quantity: int, price: Money)
    ensures TotalAmount(SetLine(items, pid, quantity, price)) ==
      match LineOf(items, pid)
      case Some(line) => TotalAmount(items) - LineTotal(line) + quantity * price
      case None => TotalAmount(items)
  {
    if IndexOf(items, pid).Some? {
      var k := IndexOf(items, pid).value;
      TotalReplace(items, k, items[k].(quantity := quantity, price := price));
    }
  }

  /** Removing drops exactly the product's line: one line fewer, the product gone,
      every other product's line as it was. */
  lemma RemoveLineEffect(items: seq<CartItem>, pid: ProductId, other: ProductId)
    requires DistinctIds(items)
    requires other != pid
    ensures LineOf(RemoveLine(items, pid), pid).None?
    ensures LineOf(RemoveLine(items, pid), other) == LineOf(items, other)
    ensures |RemoveLine(items, pid)| == |items| - (if LineOf(items, pid).Some? then 1 else 0)
    ensures DistinctIds(RemoveLine(items, pid))
  {
    var r := RemoveLine(items, pid);
    if IndexOf(items, pid).Some? {
      var k := IndexOf(items, pid).value;
      assert forall i :: 0 <= i < k ==> r[i] == items[i];
      assert forall i :: k <= i < |r| ==> r[i] == items[i + 1];
      if IndexOf(items, other).Some? {
        var j := IndexOf(items, other).value;
        assert r[if j < k then j else j - 1] == items[j];
      }
      if IndexOf(r, other).Some? {
        var j := IndexOf(r, other).value;
        assert r[j] == items[if j < k then j else j + 1];
      }
    }
  }

  /** Removing lowers the total by the removed line's total. */
  lemma RemoveLineTotal(items: seq<CartItem>, pid: ProductId)
    ensures TotalAmount(RemoveLine(items, pid)) ==
      match LineOf(items, pid)
      case Some(line) => TotalAmount(items) - LineTotal(line)
      case None => TotalAmount(items)
  {
    if IndexOf(items, pid).Some? {
      TotalRemove(items, IndexOf(items, pid).value);
    }
  }

  // ---------------------------------------------------------------------------
  // The service over the per-user cart repository

  class CartService {
    /** The cart repository: at most one cart per user. */
    var carts: map<UserId, Cart>

    /** Every cart is stored under its own user and has one line per product. */
    ghost predicate Valid()
      reads this
    {
      forall u :: u in carts ==> carts[u].userId == u && DistinctIds(carts[u].items)
    }

    constructor ()
      ensures Valid() && carts == map[]
    {
      carts := map[];
    }

    /** Saves a new empty cart for a user who has none. */
    method CreateNewCart(userId: UserId) returns (cart: Cart)
      requires Valid() && userId !in carts
      modifies this
      ensures Valid()
      ensures cart == Cart(userId, []) && carts == old(carts)[userId := cart]
    {
      cart := Cart(userId, []);
      carts := carts[userId := cart];
    }

    /** Returns the user's cart, creating and saving an empty one if there is none. */
    method GetCart(userId: UserId) returns (cart: Cart)
      requires Valid()
      modifies this
      ensures Valid()
      ensures cart.userId == userId && cart.items == ItemsOf(old(carts), userId)
      ensures userId in carts && carts[userId] == cart
      ensures carts == old(carts)[userId := cart]
      ensures userId in old(carts) ==> carts == old(carts)
    {
      if userId in carts {
        cart := carts[userId];
      } else {
        cart := CreateNewCart(userId);
      }
    }

    /** Adds `quantity` of a product after checking, before any cart is loaded,
        that the product exists, is active and has at least `quantity` in stock. */
    method AddItemToCart(userId: UserId, productId: ProductId, quantity: int, catalog: Catalog) returns (r: Result<Cart>)
      requires Valid()
      modifies this
      ensures Valid()
      ensures (productId !in catalog || !catalog[productId].isActive) ==> r == Err(ProductUnavailable)
      ensures (productId in catalog && catalog[productId].isActive && catalog[productId].stockQuantity < quantity) ==>
        r == Err(InsufficientStock)
      ensures r.Ok? <==> (productId in catalog && catalog[productId].isActive && quantity <= catalog[productId].stockQuantity)
      ensures r.Err? ==> carts == old(carts)
      ensures r.Ok? ==>
        productId in catalog && catalog[productId].isActive && quantity <= catalog[productId].stockQuantity &&
        r.value == Cart(userId, AddLine(ItemsOf(old(carts), userId), productId, catalog[productId], quantity)) &&
        carts == old(carts)[userId := r.value]
    {
      if productId !in catalog || !catalog[productId].isActive {
        return Err(ProductUnavailable);
      }
      var product := catalog[productId];
      if product.stockQuantity < quantity {
        return Err(InsufficientStock);
      }
      var cart := GetCart(userId);
      var items := cart.items;
      AddLinePreservesDistinct(items, productId, product, quantity);
      match IndexOf(items, productId) {
        case Some(k) =>
          items := items[k := items[k].(quantity := items[k].quantity + quantity)];
        case None =>
          items := items + [CartItem(productId, product.name, product.unit, quantity, product.price)];
      }
      cart := cart.(items := items);
      carts := carts[userId := cart];
      r := Ok(cart);
    }

    /** Sets the line for a product to an absolute quantity and the catalog's
        current price, after checking the cart, the product, the stock and the
        line, in that order. */
    method UpdateCartItem(userId: UserId, productId: ProductId, quantity: int, catalog: Catalog) returns (r: Result<Cart>)
      requires Valid()
      modifies this
      ensures Valid()
      ensures userId !in old(carts) ==> r == Err(CartNotFound)
      ensures userId in old(carts) && (productId !in catalog || !catalog[productId].isActive) ==>
        r == Err(ProductUnavailable)
      ensures (userId in old(carts) && productId in catalog && catalog[productId].isActive &&
               catalog[productId].stockQuantity < quantity) ==> r == Err(InsufficientStock)
      ensures (userId in old(carts) && productId in catalog && catalog[productId].isActive &&
               quantity <= catalog[productId].stockQuantity && LineOf(old(carts)[userId].items, productId).None?) ==>
        r == Err(ItemNotFound)
      ensures r.Ok? <==> (userId in old(carts) && productId in catalog && catalog[productId].isActive &&
                          quantity <= catalog[productId].stockQuantity && LineOf(old(carts)[userId].items, productId).Some?)
      ensures r.Err? ==> carts == old(carts)
      ensures r.Ok? ==>
        userId in old(carts) && productId in catalog && catalog[productId].isActive &&
        quantity <= catalog[productId].stockQuantity && LineOf(old(carts)[userId].items, productId).Some? &&
        r.value == old(carts)[userId].(items := SetLine(old(carts)[userId].items, productId, quantity, catalog[productId].price)) &&
        carts == old(carts)[userId := r.value]
    {
      if userId !in carts {
        return Err(CartNotFound);
      }
      var cart := carts[userId];
      if productId !in catalog || !catalog[productId].isActive {
        return Err(ProductUnavailable);
      }
      var product := catalog[productId];
      if product.stockQuantity < quantity {
        return Err(InsufficientStock);
      }
      match IndexOf(cart.items, productId)
      case Some(k) =>
        SetLinePreservesDistinct(cart.items, productId, quantity, product.price);
        cart := cart.(items := cart.items[k := cart.items[k].(quantity := quantity, price := product.price)]);
        carts := carts[userId := cart];
        r := Ok(cart);
      case None =>
        r := Err(ItemNotFound);
    }

    /** Removes the line for a product; a product not in the cart is no error and
        leaves the cart as it was. */
    method RemoveItemFromCart(userId: UserId, productId: ProductId) returns (r: Result<Cart>)
      requires Valid()
      modifies this
      ensures Valid()
      ensures r.Err? <==> userId !in old(carts)
      ensures r.Err? ==> r.error == CartNotFound && carts == old(carts)
      ensures r.Ok? ==>
        r.value == old(carts)[userId].(items := RemoveLine(old(carts)[userId].items, productId)) &&
        carts == old(carts)[userId := r.value]
      ensures r.Ok? && LineOf(old(carts)[userId].items, productId).None? ==>
        r.value == old(carts)[userId] && carts == old(carts)
    {
      if userId !in carts {
        return Err(CartNotFound);
      }
      var cart := carts[userId];
      match IndexOf(cart.items, productId) {
        case Some(k) =>
          RemoveLineEffect(cart.items, productId, productId + 1);
          cart := cart.(items := cart.items[..k] + cart.items[k + 1..]);
          carts := carts[userId := cart];
        case None =>
      }
      r := Ok(cart);
    }

    /** Empties the user's cart. */
    method ClearCart(userId: UserId) returns (r: Result<Cart>)
      requires Valid()
      modifies this
      ensures Valid()
      ensures r.Err? <==> userId !in old(carts)
      ensures r.Err? ==> r.error == CartNotFound && carts == old(carts)
      ensures r.Ok? ==> r.value == Cart(userId, []) && carts == old(carts)[userId := r.value]
    {
      if userId !in carts {
        return Err(CartNotFound);
      }
      var cart := carts[userId].(items := []);
      carts := carts[userId := cart];
      r := Ok(cart);
    }
  }

  /** Asking for a cart twice creates it at most once: the second call changes nothing
      and returns the same cart. */
  method GetCartTwice(service: CartService, userId: UserId)
    requires service.Valid()
    modifies service
  {
    var first := service.GetCart(userId);
    ghost var afterFirst := service.carts;
    var second := service.GetCart(userId);
    assert second == first && service.carts == afterFirst;
  }
}
