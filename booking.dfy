/** The records the storefront passes around: products from the feed,
    passenger details from the form, and the cart items pairing the two. */
module Booking {
  import opened Wrappers

  /** A product card of the catalog: the three fields the page reads. */
  datatype Product = Product(name: string, description: string, image: string)

  datatype Gender = Male | Female | Other

  /** The values of the passenger form. No form item carries a validation
      rule, so every field may be missing. The travel date is the text of the
      date the picker returned. */
  datatype Passenger = Passenger(
    travelDate: Option<string>,
    name: Option<string>,
    email: Option<string>,
    age: Option<string>,
    gender: Option<Gender>,
    nationality: Option<string>,
    passport: Option<string>)

  /** One booking: the selected product and the passenger form values. */
  datatype CartItem = CartItem(product: Product, passenger: Passenger)
}
