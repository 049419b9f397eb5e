/** The "add to cart" button of a product card. */
module ProductCard {
  import opened CartTypes

  /** The one command `handleAddToCart` dispatches: ADD_ITEM with a
      snapshot of the product's id, name and price and quantity 1. */
  function AddToCart(product: Product): (c: Cmd)
    ensures c.AddItem?
    ensures c.productId == product.id && c.name == product.name && c.price == product.price
    ensures c.quantity == 1
  {
    AddItem(product.id, product.name, product.price, 1)
  }

  /** The effects of `handleAddToCart`: exactly one dispatch, of that
      command. */
  function HandleAddToCart(product: Product): (effects: seq<Effect>)
    ensures Dispatched(effects) == [AddToCart(product)]
    ensures LogKeepsQuantitiesPositive(effects)
  {
    [Dispatch(AddToCart(product))]
  }

  /** Adding a product to the cart never asks for a quantity below 1. */
  lemma AddToCartKeepsQuantitiesPositive(product: Product)
    ensures KeepsQuantitiesPositive(AddToCart(product))
  {
  }

  /** The command depends on the product only through its id, name and
      price: description, image, category, link and date do not matter. */
  lemma AddToCartSnapshot(p: Product, q: Product)
    requires p.id == q.id && p.name == q.name && p.price == q.price
    ensures AddToCart(p) == AddToCart(q)
  {
  }
}
