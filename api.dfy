/**
 * What the route handlers share: the authenticated caller, the failures a
 * handler answers with, and the writes it asks the store and the file
 * service to perform. A handler is a function of the caller, the request
 * and the records the store returned; its outcome is the reply together
 * with the writes it issued, in order.
 */
module Api {
  import opened Js
  import opened NotionService

  /** The caller as the authentication layer leaves it on the request:
      `req.phone` (possibly undefined) and `req.isAdmin`. */
  datatype Caller = Caller(phone: Option<string>, isAdmin: bool)

  datatype Failure =
    | AccessDenied       // 403 "Access denied"
    | AdminRequired      // 403 "Admin access required"
    | ValidationFailed   // 400 from `validationError`
    | NotCancellable     // 400 "Order cannot be cancelled at this stage"
    | InvalidStatus      // 400 "Invalid status"
    | Unauthorized       // 401 when no user is authenticated
    | ServerError        // 500: a store call or the handler itself threw

  function StatusCode(f: Failure): (code: nat)
    ensures 400 <= code < 600
  {
    match f
    case AccessDenied => 403
    case AdminRequired => 403
    case ValidationFailed => 400
    case NotCancellable => 400
    case InvalidStatus => 400
    case Unauthorized => 401
    case ServerError => 500
  }

  datatype Reply<+T> = Ok(code: nat, data: T) | Fail(failure: Failure)

  /** A write a handler issues. */
  datatype Effect =
    | SaveOrder(data: OrderData)                                // notionService.createOrder
    | MakeFolders(customerName: Option<string>, orderId: string) // driveService.createCustomerFolders
    | SaveUpdate(orderId: string, updates: map<string, Json>)   // notionService.updateOrder

  datatype Handled<+T> = Handled(reply: Reply<T>, effects: seq<Effect>)

  /** The reply of an update route: the store's record of the order. */
  datatype Updated = Updated(orderId: string)
}
