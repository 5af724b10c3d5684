/** The product data the screen shows. The data provider that fetches it is
    not part of this model: a product simply arrives, or does not. */
module Data {

  /** One user review; its fields are rendered by the review list's adapter,
      which is not part of this model. */
  datatype Review = Review(author: string, body: string)

  /** AppData: the product shown on the screen. */
  datatype AppData = AppData(
    title: string,
    developer: string,
    description: string,
    shortDescription: string,
    reviews: seq<Review>)
}
