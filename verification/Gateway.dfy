/**
 * What the handlers exchange with the payment gateway. The gateway itself is
 * not modelled: the outcome of each call is an input of the handler that makes
 * it, in the shape the callback receives it.
 */
module Gateway {
  import opened JsValues

  /** The error object a gateway callback receives; its content is opaque here. */
  datatype GatewayError = GatewayError(detail: string)

  /** The client token response of `clientToken.generate`. */
  datatype TokenResponse = TokenResponse(clientToken: string)

  /** The callback arguments of `clientToken.generate`: an error, or a token response. */
  datatype TokenOutcome = TokenFailed(error: GatewayError) | TokenIssued(response: TokenResponse)

  /** The `transaction` object of a sale result; the gateway may leave its `id` out. */
  datatype Transaction = Transaction(id: Option<string>)

  /**
   * The callback arguments of `transaction.sale`: an error object; no error
   * and no result object; or a result object with its `success` flag, its
   * `transaction` object and its `message` (any of the last two may be absent).
   */
  datatype SaleOutcome =
    | SaleFailed(error: GatewayError)
    | NoResult
    | SaleResult(success: bool, transaction: Option<Transaction>, message: Option<string>)

  /** The amount field of a request body: its text and what `parseFloat` makes of it. */
  datatype AmountField = AmountField(text: string, parsed: JsNumber)

  /** The `customer` record of a sale. */
  datatype Customer = Customer(
    firstName: Option<string>,
    lastName: Option<string>,
    email: Option<string>,
    company: Option<string>)

  /** The charge submitted with `transaction.sale`. */
  datatype Charge = Charge(
    amount: Option<AmountField>,
    orderId: Option<string>,
    customer: Customer,
    paymentMethodNonce: Option<string>,
    submitForSettlement: bool)
}
