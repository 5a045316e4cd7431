/** The order line as the order service returns it: a bean whose setters keep
    totalPrice equal to price times quantity, except when totalPrice itself is set. */
module OrderItems {
  import opened Common

  class OrderItemResponse {
    var id: Option<int>
    var productId: Option<ProductId>
    var productName: Option<string>
    var productUnit: Option<string>
    var quantity: Option<int>
    var price: Option<Money>
    var totalPrice: Option<Money>

    /** totalPrice is derived: price times quantity whenever both are set. */
    ghost predicate Derived()
      reads this
    {
      price.Some? && quantity.Some? ==> totalPrice == Some(price.value * quantity.value)
    }

    /** The no-argument constructor: every field null. */
    constructor Empty()
      ensures id.None? && productId.None? && productName.None? && productUnit.None?
      ensures quantity.None? && price.None? && totalPrice.None?
      ensures Derived()
    {
      id, productId, productName, productUnit := None, None, None, None;
      quantity, price, totalPrice := None, None, None;
    }

    /** The full constructor derives totalPrice from price and quantity. */
    constructor (id: Option<int>, productId: Option<ProductId>, productName: Option<string>,
                 productUnit: Option<string>, quantity: int, price: Money)
      ensures this.id == id && this.productId == productId
      ensures this.productName == productName && this.productUnit == productUnit
      ensures this.quantity == Some(quantity) && this.price == Some(price)
      ensures totalPrice == Some(price * quantity)
      ensures Derived()
    {
      this.id := id;
      this.productId := productId;
      this.productName := productName;
      this.productUnit := productUnit;
      this.quantity := Some(quantity);
      this.price := Some(price);
      this.totalPrice := Some(price * quantity);
    }

    method SetId(id: Option<int>)
      modifies this`id
      ensures this.id == id
      ensures quantity == old(quantity) && price == old(price) && totalPrice == old(totalPrice)
    {
      this.id := id;
    }

    method SetProductId(productId: Option<ProductId>)
      modifies this`productId
      ensures this.productId == productId
      ensures quantity == old(quantity) && price == old(price) && totalPrice == old(totalPrice)
    {
      this.productId := productId;
    }

    method SetProductName(productName: Option<string>)
      modifies this`productName
      ensures this.productName == productName
      ensures quantity == old(quantity) && price == old(price) && totalPrice == old(totalPrice)
    {
      this.productName := productName;
    }

    method SetProductUnit(productUnit: Option<string>)
      modifies this`productUnit
      ensures this.productUnit == productUnit
      ensures quantity == old(quantity) && price == old(price) && totalPrice == old(totalPrice)
    {
      this.productUnit := productUnit;
    }

    /** Setting the quantity re-derives totalPrice when a price is set, and leaves
        it alone otherwise; either way the derivation holds afterwards. */
    method SetQuantity(quantity: int)
      modifies this`quantity, this`totalPrice
      ensures this.quantity == Some(quantity)
      ensures totalPrice == if price.Some? then Some(price.value * quantity) else old(totalPrice)
      ensures Derived()
    {
      this.quantity := Some(quantity);
      if price.Some? {
        totalPrice := Some(price.value * quantity);
      }
    }

    /** Setting the price re-derives totalPrice when a quantity is set, and leaves
        it alone otherwise; either way the derivation holds afterwards. */
    method SetPrice(price: Money)
      modifies this`price, this`totalPrice
      ensures this.price == Some(price)
      ensures totalPrice == if quantity.Some? then Some(price * quantity.value) else old(totalPrice)
      ensures Derived()
    {
      this.price := Some(price);
      if quantity.Some? {
        totalPrice := Some(price * quantity.value);
      }
    }

    /** Overrides totalPrice: the derivation then holds only if the new value
        happens to agree with price times quantity. */
    method SetTotalPrice(totalPrice: Option<Money>)
      modifies this`totalPrice
      ensures this.totalPrice == totalPrice
      ensures Derived() <==> (price.Some? && quantity.Some? ==> totalPrice == Some(price.value * quantity.value))
    {
      this.totalPrice := totalPrice;
    }
  }

  /** An override makes totalPrice drift from price times quantity until the next
      setQuantity or setPrice derives it again. */
  method OverrideDrifts()
  {
    var line := new OrderItemResponse(None, Some(1), Some("Milk"), Some("l"), 2, 350);
    assert line.totalPrice == Some(700);
    line.SetTotalPrice(Some(1));
    assert !line.Derived();
    line.SetQuantity(3);
    assert line.totalPrice == Some(1050) && line.Derived();
  }
}
