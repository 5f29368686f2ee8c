/** The ways the order handler's `try` block can end in its `catch` that
    this model covers. */
module Errors {

  datatype Failure =
    /** the token endpoint answered with a non-2xx status */
    | AuthenticationFailed
    /** the token endpoint answered 2xx without a truthy `access_token` */
    | NoAccessToken
    /** the purchases endpoint answered with a non-2xx status */
    | PurchasesRequestFailed
    /** a request was rejected before any response arrived */
    | NetworkFailure
    /** a 2xx response body was not JSON */
    | UnreadableBody
    /** a response body read for a field was JSON `null`, so reading the field threw */
    | NullBody
    /** `purchases` was truthy but not an array, so `.filter` is not a function */
    | PurchasesNotAList
    /** a kept purchase lists a `null` or `undefined` product, so reading its `name` threw */
    | NullProduct
}
