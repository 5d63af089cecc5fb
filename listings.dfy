/**
 * The records the listing pipeline works on: one vendor listing, the nested
 * vendor payload it arrives in, and the ways the pipeline can fail.
 */
module Listings {
  import opened Common

  /** `price.value` and `price.discount`, after `Number(...)` coercion. */
  datatype Price = Price(value: int, discount: int)

  /**
   * One offered car configuration. Only `price` is read by the pipeline; the
   * descriptive fields are carried unchanged to the renderers.
   */
  datatype Listing = Listing(
    brand: string,
    model: string,
    equipmentName: string,
    wheel: string,
    engineType: string,
    colorName: string,
    transmission: Option<string>,
    imageFace: Option<string>,
    price: Price)

  /** Innermost level: listing id to listing. */
  datatype SubCategory = SubCategory(items: Object<Listing>)

  /** One brand entry: sub-category key to sub-category. */
  datatype BrandNode = BrandNode(items: Object<SubCategory>)

  /** A parsed response; `items == None` stands for a missing or falsy `items` field. */
  datatype Payload = Payload(items: Option<Object<BrandNode>>)

  /** Where the pipeline throws, and so writes nothing. */
  datatype Error =
    | NoSubCategory(brand: string)   // `items[Object.keys(items)[0]]` is undefined
    | MissingListing(model: nat)     // cheapest mode took `[0]` of an empty model list
}
