/** The store's entity shapes, as its interfaces declare them. Groups,
    categories and promotions are kept exactly as the backend sends them;
    products are held as raw records (see module Normalizer). */
module Entities {
  import opened Wrappers

  /** A top-level grouping; `id` is absent until the backend assigns one. */
  datatype Group = Group(id: Option<int>, name: string)

  /** A category; `groupId` refers to a group's id, unchecked. */
  datatype Category = Category(
    id: Option<int>,
    name: string,
    productCount: int,
    color: string,
    image: string,
    groupId: int)

  /** A promotion banner, with no relation to the other entities. */
  datatype Promotion = Promotion(
    id: Option<int>,
    title: string,
    color: string,
    image: string,
    buttonText: string,
    buttonColor: string)
}
