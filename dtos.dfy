/** The response and request objects the services exchange with the controllers.
    `modelMapper.map(product, ProductResponse.class)` copies the product's fields
    of the same name; `ToProductResponse` is that projection. */
module Dtos {
  import opened JavaInt
  import opened Entities

  datatype ProductRequest = ProductRequest(
    name: string,
    brand: string,
    price: real,
    inventory: int32,
    description: string,
    category: string)

  datatype ProductResponse = ProductResponse(
    id: nat,
    name: string,
    description: string,
    price: real,
    inventory: int32,
    brand: string,
    category: Category,
    images: seq<string>)

  datatype CartItemResponse = CartItemResponse(id: nat, quantity: int32, product: ProductResponse)

  datatype CartResponse = CartResponse(id: nat, items: seq<CartItemResponse>)

  datatype OrderItemResponse = OrderItemResponse(id: nat, quantity: int32, price: real, product: ProductResponse)

  datatype OrderResponse = OrderResponse(id: nat, totalAmount: real, items: seq<OrderItemResponse>)

  function ToProductResponse(p: Product): (r: ProductResponse)
    ensures r.id == p.id && r.name == p.name && r.description == p.description && r.price == p.price
    ensures r.inventory == p.inventory && r.brand == p.brand && r.category == p.category && r.images == p.images
  {
    ProductResponse(p.id, p.name, p.description, p.price, p.inventory, p.brand, p.category, p.images)
  }
}
