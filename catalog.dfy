/** The product catalog service: a product store with soft delete, partial
    update and an unchecked stock decrement. */
module Catalog {
  import opened Common

  datatype Product = Product(
    id: ProductId,
    name: string,
    description: Option<string>,
    unit: string,
    price: Money,
    shelfLifeDays: Option<int>,
    stockQuantity: int,
    category: Option<string>,
    imageUrl: Option<string>,
    isActive: bool)

  /** A create or update request; every field may be null. */
  datatype ProductRequest = ProductRequest(
    name: Option<string>,
    description: Option<string>,
    unit: Option<string>,
    price: Option<Money>,
    shelfLifeDays: Option<int>,
    stockQuantity: Option<int>,
    category: Option<string>,
    imageUrl: Option<string>)

  /** The request validation that runs before a product is created: name, unit,
      price and stock are present, and price and stock are positive. */
  predicate ValidRequest(req: ProductRequest) {
    req.name.Some? && req.unit.Some? &&
    req.price.Some? && req.price.value > 0 &&
    req.stockQuantity.Some? && req.stockQuantity.value > 0
  }

  /** The product a create request describes, stored under `id` and active. */
  function FromRequest(id: ProductId, req: ProductRequest): Product
    requires ValidRequest(req)
  {
    Product(id, req.name.value, req.description, req.unit.value, req.price.value,
            req.shelfLifeDays, req.stockQuantity.value, req.category, req.imageUrl, true)
  }

  /** A partial update: each non-null request field overwrites the product's field. */
  function ApplyUpdate(p: Product, req: ProductRequest): Product {
    p.(name := req.name.GetOr(p.name),
       description := if req.description.Some? then req.description else p.description,
       unit := req.unit.GetOr(p.unit),
       price := req.price.GetOr(p.price),
       shelfLifeDays := if req.shelfLifeDays.Some? then req.shelfLifeDays else p.shelfLifeDays,
       stockQuantity := req.stockQuantity.GetOr(p.stockQuantity),
       category := if req.category.Some? then req.category else p.category,
       imageUrl := if req.imageUrl.Some? then req.imageUrl else p.imageUrl)
  }

  const NoChanges := ProductRequest(None, None, None, None, None, None, None, None)

  /** The repository's findByIsActiveTrue, without paging. */
  function ActiveProducts(products: map<ProductId, Product>): set<Product> {
    set id | id in products && products[id].isActive :: products[id]
  }

  /** The repository's findByCategoryAndIsActiveTrue. */
  function ActiveInCategory(products: map<ProductId, Product>, category: string): set<Product> {
    set id | id in products && products[id].isActive && products[id].category == Some(category) :: products[id]
  }

  /** An update with no fields set changes nothing. */
  lemma UpdateNothing(p: Product)
    ensures ApplyUpdate(p, NoChanges) == p
  {
  }

  /** Applying the same update twice is the same as applying it once. */
  lemma UpdateIdempotent(p: Product, req: ProductRequest)
    ensures ApplyUpdate(ApplyUpdate(p, req), req) == ApplyUpdate(p, req)
  {
  }

  /** An update carrying every field gives the product a create with that request
      would give, except that the id and the active flag are kept. */
  lemma FullUpdateIsCreate(p: Product, req: ProductRequest)
    requires ValidRequest(req)
    requires req.description.Some? && req.shelfLifeDays.Some? && req.category.Some? && req.imageUrl.Some?
    ensures ApplyUpdate(p, req) == FromRequest(p.id, req).(isActive := p.isActive)
  {
  }

  /** Two updates in a row equal one update whose fields are the later request's
      where it has them and the earlier request's otherwise. */
  lemma UpdateCompose(p: Product, a: ProductRequest, b: ProductRequest)
    ensures ApplyUpdate(ApplyUpdate(p, a), b) == ApplyUpdate(p, Overlay(b, a))
  {
  }

  /** The fields of `top` that are set, the fields of `bottom` otherwise. */
  function Overlay(top: ProductRequest, bottom: ProductRequest): ProductRequest {
    ProductRequest(
      if top.name.Some? then top.name else bottom.name,
      if top.description.Some? then top.description else bottom.description,
      if top.unit.Some? then top.unit else bottom.unit,
      if top.price.Some? then top.price else bottom.price,
      if top.shelfLifeDays.Some? then top.shelfLifeDays else bottom.shelfLifeDays,
      if top.stockQuantity.Some? then top.stockQuantity else bottom.stockQuantity,
      if top.category.Some? then top.category else bottom.category,
      if top.imageUrl.Some? then top.imageUrl else bottom.imageUrl)
  }

  class ProductService {
    /** The product store. */
    var products: map<ProductId, Product>
    /** The id the store gives the next product it saves. */
    var nextId: nat

    ghost predicate Valid()
      reads this
    {
      forall id :: id in products ==> products[id].id == id && 0 <= id < nextId
    }

    constructor ()
      ensures Valid() && products == map[]
    {
      products := map[];
      nextId := 0;
    }

    /** Active products, without paging. */
    method GetAllProducts() returns (r: set<Product>)
      ensures forall p :: p in r ==> p.isActive && p in products.Values
      ensures forall id :: id in products && products[id].isActive ==> products[id] in r
    {
      r := ActiveProducts(products);
    }

    /** Active products of one category. */
    method GetProductsByCategory(category: string) returns (r: set<Product>)
      ensures forall p :: p in r ==> p.isActive && p.category == Some(category) && p in products.Values
      ensures forall id :: id in products && products[id].isActive && products[id].category == Some(category) ==>
        products[id] in r
    {
      r := ActiveInCategory(products, category);
    }

    /** The product with this id; an unknown id and an inactive product fail
        with different errors. */
    method GetProductById(id: ProductId) returns (r: Result<Product>)
      ensures id !in products ==> r == Err(ProductNotFound)
      ensures id in products && !products[id].isActive ==> r == Err(ProductInactive)
      ensures r.Ok? <==> id in products && products[id].isActive
      ensures r.Ok? ==> r.value == products[id]
    {
      if id !in products {
        return Err(ProductNotFound);
      }
      var product := products[id];
      if !product.isActive {
        return Err(ProductInactive);
      }
      r := Ok(product);
    }

    /** Saves a new active product whose fields are the request's. */
    method CreateProduct(req: ProductRequest) returns (p: Product)
      requires Valid() && ValidRequest(req)
      modifies this
      ensures Valid()
      ensures p == FromRequest(old(nextId), req) && p.isActive
      ensures p.id !in old(products) && products == old(products)[p.id := p]
    {
      p := FromRequest(nextId, req);
      products := products[nextId := p];
      nextId := nextId + 1;
    }

    /** Overwrites the fields that are set in the request; an unknown id fails. */
    method UpdateProduct(id: ProductId, req: ProductRequest) returns (r: Result<Product>)
      requires Valid()
      modifies this
      ensures Valid() && nextId == old(nextId)
      ensures r.Err? <==> id !in old(products)
      ensures r.Err? ==> r.error == ProductNotFound && products == old(products)
      ensures r.Ok? ==> r.value == ApplyUpdate(old(products)[id], req) && products == old(products)[id := r.value]
      ensures r.Ok? ==> r.value.id == id && r.value.isActive == old(products)[id].isActive
    {
      if id !in products {
        return Err(ProductNotFound);
      }
      var product := ApplyUpdate(products[id], req);
      products := products[id := product];
      r := Ok(product);
    }

    /** Soft delete: clears the active flag and keeps the product in the store. */
    method DeleteProduct(id: ProductId) returns (r: Result<()>)
      requires Valid()
      modifies this
      ensures Valid() && nextId == old(nextId)
      ensures r.Err? <==> id !in old(products)
      ensures r.Err? ==> r.error == ProductNotFound && products == old(products)
      ensures r.Ok? ==> products == old(products)[id := old(products)[id].(isActive := false)]
    {
      if id !in products {
        return Err(ProductNotFound);
      }
      products := products[id := products[id].(isActive := false)];
      r := Ok(());
    }

    /** Lowers the stock by `quantity` with no lower bound; an unknown id fails. */
    method UpdateStockQuantity(productId: ProductId, quantity: int) returns (r: Result<()>)
      requires Valid()
      modifies this
      ensures Valid() && nextId == old(nextId)
      ensures r.Err? <==> productId !in old(products)
      ensures r.Err? ==> r.error == ProductNotFound && products == old(products)
      ensures r.Ok? ==> products == old(products)[productId :=
        old(products)[productId].(stockQuantity := old(products)[productId].stockQuantity - quantity)]
    {
      if productId !in products {
        return Err(ProductNotFound);
      }
      var product := products[productId];
      products := products[productId := product.(stockQuantity := product.stockQuantity - quantity)];
      r := Ok(());
    }
  }

  /** A deleted product stays stored, cannot be fetched, is not listed, and deleting
      it again succeeds and changes nothing. */
  method DeleteHidesProduct(service: ProductService, id: ProductId)
    requires service.Valid() && id in service.products
    modifies service
  {
    var deleted := service.DeleteProduct(id);
    assert id in service.products && !service.products[id].isActive;
    ghost var afterFirst := service.products;
    var fetched := service.GetProductById(id);
    assert fetched == Err(ProductInactive);
    var listed := service.GetAllProducts();
    assert service.products[id] !in listed;
    var again := service.DeleteProduct(id);
    assert again.Ok? && service.products == afterFirst;
  }

  /** The stock decrement is not checked: taking 3 from a stock of 2 leaves -1. */
  method StockCanGoNegative(service: ProductService)
    requires service.Valid()
    modifies service
  {
    var p := service.CreateProduct(ProductRequest(Some("Eggs"), None, Some("dozen"), Some(400), None, Some(2), None, None));
    var r := service.UpdateStockQuantity(p.id, 3);
    assert r.Ok? && service.products[p.id].stockQuantity == -1;
  }
}
