/**
 * The records passed to and from every repository variant: the stored Item,
 * the update payload and the search condition. Java's boxed, nullable fields
 * become Option where the code tests them for null.
 */
module Domain {
  import opened Wrappers

  /** An Item; `id` is None until a store assigns one on save. */
  datatype Item = Item(id: Option<int>, itemName: string, price: int, quantity: int)

  /** New values for an item's three mutable fields; it has no identity. */
  datatype ItemUpdateDto = ItemUpdateDto(itemName: string, price: int, quantity: int)

  /** Optional name-substring filter and optional inclusive price bound. */
  datatype ItemSearchCondition = ItemSearchCondition(itemName: Option<string>, maxPrice: Option<int>)

  /** The Item(itemName, price, quantity) constructor: no id yet. */
  function NewItem(itemName: string, price: int, quantity: int): (item: Item)
    ensures item.id.None?
    ensures item.itemName == itemName && item.price == price && item.quantity == quantity
  {
    Item(None, itemName, price, quantity)
  }
}
