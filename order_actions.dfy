/**
 * The order mutations the client invokes. Their server side is not part of
 * this model; what is modelled is which status each one asks for.
 */
module OrderActions {
  import opened Schema

  datatype Mutation =
    | AcceptOrder(orderId: Id)
    | RejectOrder(orderId: Id)
    | StartDelivery(orderId: Id)
    | CompleteOrder(orderId: Id)
    | CancelOrder(orderId: Id)

  /**
   * The status each mutation requests: the vendor's four follow the
   * dispatch of the seller order card; cancelOrder is the buyer's cancel.
   */
  function RequestedStatus(m: Mutation): Status {
    match m
    case AcceptOrder(_) => Confirmed
    case RejectOrder(_) => Cancelled
    case StartDelivery(_) => Delivering
    case CompleteOrder(_) => Completed
    case CancelOrder(_) => Cancelled
  }
}
