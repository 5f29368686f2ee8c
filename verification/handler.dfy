/** The order handler: obtain a token, fetch today's purchases, and answer
    either the formatted display list or an error. The two upstream replies
    are inputs; nothing here performs I/O. */
module Handler {
  import opened Js
  import opened Wrappers
  import opened Errors
  import opened Purchases
  import opened Orders
  import opened Pipeline

  /** A parsed 2xx JSON body: `null`, or a value whose fields can be read (a
      non-null primitive reads as an object whose fields are all missing). */
  datatype Body<T> = JsonNull | ObjectBody(fields: T)

  /** What an upstream request came back with. */
  datatype Reply<T> =
    | Unreachable          // the request was rejected before any response
    /** a response whose status is outside 200-299; `nullBody` records
        whether its body parses to JSON `null` (only the token step reads it,
        falling back to `{}` when the body is not JSON) */
    | NotOk(nullBody: bool)
    | Unreadable           // a 2xx response whose body is not JSON
    | Received(body: Body<T>)

  datatype TokenFields = TokenFields(accessToken: Scalar)
  datatype OrdersFields = OrdersFields(purchases: PurchasesField)

  /** The JSON body the handler returns. */
  datatype Payload =
    | Success(orders: seq<Order>)
    | Error(stage: string, failure: Failure)

  datatype Response = Response(statusCode: int, payload: Payload)

  const Processing := "processing"

  /** The token reply carries a usable access token. */
  predicate Granted(token: Reply<TokenFields>) {
    token.Received? && token.body.ObjectBody? && Truthy(token.body.fields.accessToken)
  }

  /** Why the token step ends the request, if it does. */
  function TokenFailure(token: Reply<TokenFields>): Option<Failure> {
    match token
    case Unreachable => Some(NetworkFailure)
    case NotOk(nullBody) =>
      // reading `errorData.error` of a `null` error body throws first
      if nullBody then Some(NullBody) else Some(AuthenticationFailed)
    case Unreadable => Some(UnreadableBody)
    case Received(JsonNull) => Some(NullBody)
    case Received(ObjectBody(fields)) =>
      if Truthy(fields.accessToken) then None else Some(NoAccessToken)
  }

  /** The display list the purchases reply yields, or why it yields none. */
  function OrdersOutcome(orders: Reply<OrdersFields>): Result<seq<Order>, Failure> {
    match orders
    case Unreachable => Err(NetworkFailure)
    case NotOk(_) => Err(PurchasesRequestFailed)
    case Unreadable => Err(UnreadableBody)
    case Received(JsonNull) => Err(NullBody)
    case Received(ObjectBody(fields)) => FormatPurchases(fields.purchases)
  }

  /** The handler. Every failure, whichever step raised it, is caught into a
      500 error answer carrying no orders; the purchases reply only matters
      once a token was granted. */
  function Handle(token: Reply<TokenFields>, orders: Reply<OrdersFields>): (r: Response)
    ensures r.statusCode == 200 <==> r.payload.Success?
    ensures r.statusCode == 500 <==> r.payload.Error?
    ensures r.payload.Error? ==> r.payload.stage == "processing"
    ensures token.NotOk? && !token.nullBody ==> r == Response(500, Error("processing", AuthenticationFailed))
    ensures token.NotOk? && token.nullBody ==> r == Response(500, Error("processing", NullBody))
    ensures token.Received? && token.body.ObjectBody? && !Truthy(token.body.fields.accessToken) ==>
      r == Response(500, Error("processing", NoAccessToken))
    ensures !Granted(token) ==> r.payload.Error?
    ensures orders.NotOk? ==> r.payload.Error?
  {
    match TokenFailure(token)
    case Some(failure) => Response(500, Error(Processing, failure))
    case None =>
      match OrdersOutcome(orders)
      case Err(failure) => Response(500, Error(Processing, failure))
      case Ok(list) => Response(200, Success(list))
  }

  /** The handler succeeds exactly when a token was granted, the purchases
      reply was a readable object, and its `purchases` field formats; the
      orders it then returns are that formatted list. */
  lemma HandleSucceeds(token: Reply<TokenFields>, orders: Reply<OrdersFields>)
    ensures Handle(token, orders).payload.Success? <==>
      && Granted(token)
      && orders.Received? && orders.body.ObjectBody?
      && FormatPurchases(orders.body.fields.purchases).Ok?
    ensures Handle(token, orders).payload.Success? ==>
      Handle(token, orders).payload.orders == FormatPurchases(orders.body.fields.purchases).value
  {}

  /** A response without `purchases` (or with a falsy one) is an empty
      success, not an error. */
  lemma HandleNoPurchases(token: Reply<TokenFields>)
    requires Granted(token)
    ensures Handle(token, Received(ObjectBody(OrdersFields(Falsy)))) == Response(200, Success([]))
  {}
}
