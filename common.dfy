/** Small shared vocabulary: an optional value and the toast notifications
    the pages raise. A toast is a user-visible side effect; the model keeps a
    log of them so that contracts can say which one a step raises. */
module Common {

  datatype Option<+T> = None | Some(value: T)

  /** One constructor per toast that the modelled handlers raise. */
  datatype Toast =
    | StockLimitReached(available: int)   // "Only <stock> items available"
    | CartIsEmpty                         // checkout with no lines
    | OrderPlaced(totalAmount: real)      // "Total amount: $<total>"
    | CheckoutFailed
    | PageContentFetchFailed
    | InvalidPageContent                  // fetched home content has the wrong shape
    | ServiceFetchFailed
}
