/**
 * The two HTTP entry points, `getToken` and `postDonation`.
 *
 * Each handler is a method that acts on a Response object; the gateway call
 * it makes is replaced by the outcome the gateway's callback receives, given
 * as an input. What a handler does to the response is specified by a function
 * (TokenReply, DonationReply) whose properties are stated in its contract.
 */
module Handlers {
  import opened JsValues
  import opened Validators
  import opened Gateway
  import opened Http

  // ---- headers ---------------------------------------------------------------

  datatype Header = Header(name: string, value: string)

  const AllowOrigin := "Access-Control-Allow-Origin"
  const AllowMethods := "Access-Control-Allow-Methods"
  const ContentType := "Content-Type"

  /** The two CORS headers, in the order the handlers set them. */
  const CorsHeaders: seq<Header> := [Header(AllowOrigin, "*"), Header(AllowMethods, "GET, POST")]

  const JsonContentType := Header(ContentType, "application/json")

  /** The header map after setting `hs` in order. */
  function WithHeaders(h: map<string, string>, hs: seq<Header>): map<string, string>
    decreases |hs|
  {
    if hs == [] then h
    else
      var last := hs[|hs| - 1];
      WithHeaders(h, hs[..|hs| - 1])[last.name := last.value]
  }

  lemma WithOneMoreHeader(h: map<string, string>, hs: seq<Header>, x: Header)
    ensures WithHeaders(h, hs + [x]) == WithHeaders(h, hs)[x.name := x.value]
  {
    assert (hs + [x])[..|hs|] == hs;
  }

  /**
   * What a handler does to a response: the headers it sets, in order, then
   * either one status and one body, or nothing more because the handler threw
   * before sending.
   */
  datatype Reply =
    | Sent(headers: seq<Header>, status: int, body: Body)
    | Threw(headers: seq<Header>)

  /** The two `res.set` calls both handlers make. */
  method SetCorsHeaders(res: Response)
    requires res.sendCount == 0
    modifies res
    ensures res.headers == WithHeaders(old(res.headers), CorsHeaders)
    ensures res.status == old(res.status) && res.body == old(res.body) && res.sendCount == old(res.sendCount)
  {
    res.Set(AllowOrigin, "*");
    res.Set(AllowMethods, "GET, POST");
    WithOneMoreHeader(old(res.headers), [], CorsHeaders[0]);
    WithOneMoreHeader(old(res.headers), [CorsHeaders[0]], CorsHeaders[1]);
    assert [CorsHeaders[0]] + [CorsHeaders[1]] == CorsHeaders;
  }

  // ---- getToken ------------------------------------------------------------------

  /** The query string parameters of a request. */
  type Query = map<string, string>

  const MissingClientIdText := "Please provide a clientId param in the query string"

  /** `req.query ? req.query.clientId : ""` */
  function QueryClientId(query: Option<Query>): (id: Option<string>)
    ensures query.None? ==> id == Some("")
    ensures query.Some? ==> (id.Some? <==> "clientId" in query.value)
    ensures query.Some? && id.Some? ==> id.value == query.value["clientId"]
    ensures !StringTruthy(id) <==>
      query.None? || "clientId" !in query.value || query.value["clientId"] == ""
  {
    match query
    case None => Some("")
    case Some(q) => if "clientId" in q then Some(q["clientId"]) else None
  }

  /** The response of `getToken` to a request with `query`, when token generation ends in `outcome`. */
  function TokenReply(config: Config, query: Option<Query>, outcome: TokenOutcome): (r: Reply)
    ensures r.Sent?
    ensures r.status == 200 || r.status == 400
    ensures !IsValidClient(config, QueryClientId(query)) ==>
      r == Sent([], 400, Text(MissingClientIdText))
    ensures IsValidClient(config, QueryClientId(query)) <==> CorsHeaders <= r.headers
    ensures r.status == 200 <==> IsValidClient(config, QueryClientId(query)) && outcome.TokenIssued?
    ensures r.status == 200 ==>
      r.headers == CorsHeaders + [JsonContentType] && r.body == TokenObject(outcome.response)
    ensures IsValidClient(config, QueryClientId(query)) && outcome.TokenFailed? ==>
      r == Sent(CorsHeaders, 400, ErrorObject(outcome.error))
  {
    if !IsValidClient(config, QueryClientId(query)) then
      Sent([], 400, Text(MissingClientIdText))
    else
      match outcome
      case TokenFailed(e) => Sent(CorsHeaders, 400, ErrorObject(e))
      case TokenIssued(t) => Sent(CorsHeaders + [JsonContentType], 200, TokenObject(t))
  }

  /**
   * `getToken`. `tokenRequested` says whether the gateway was loaded and asked
   * for a client token; `outcome` is what that request yields.
   */
  method GetToken(config: Config, query: Option<Query>, outcome: TokenOutcome, res: Response)
    returns (tokenRequested: bool)
    requires res.sendCount == 0
    modifies res
    ensures tokenRequested <==> IsValidClient(config, QueryClientId(query))
    ensures var r := TokenReply(config, query, outcome);
      && res.headers == WithHeaders(old(res.headers), r.headers)
      && res.status == Some(r.status)
      && res.body == Some(r.body)
      && res.sendCount == 1
  {
    var clientId := QueryClientId(query);
    ghost var r := TokenReply(config, query, outcome);
    if !IsValidClient(config, clientId) {
      assert r == Sent([], 400, Text(MissingClientIdText));
      res.Status(400);
      res.Send(Text(MissingClientIdText));
      return false;
    }
    SetCorsHeaders(res);
    match outcome {
      case TokenFailed(e) =>
        assert r == Sent(CorsHeaders, 400, ErrorObject(e));
        res.Status(400);
        res.Send(ErrorObject(e));
      case TokenIssued(t) =>
        assert r == Sent(CorsHeaders + [JsonContentType], 200, TokenObject(t));
        res.Set(ContentType, "application/json");
        WithOneMoreHeader(old(res.headers), CorsHeaders, JsonContentType);
        res.Status(200);
        res.Send(TokenObject(t));
    }
    return true;
  }

  // ---- postDonation: validation --------------------------------------------------

  /** The fields of a donation request body that the handler reads. */
  datatype DonationBody = DonationBody(
    amount: Option<AmountField>,
    orderId: Option<string>,
    firstname: Option<string>,
    lastname: Option<string>,
    email: Option<string>,
    clientId: Option<string>,
    paymentMethodNonce: Option<string>)

  /** `parseFloat(amount)`; an absent amount parses to NaN. */
  function ParsedAmount(amount: Option<AmountField>): (n: JsNumber)
    ensures amount.None? ==> n.NaN? && !IsAmountValid(n)
    ensures amount.Some? ==> n == amount.value.parsed
  {
    match amount
    case None => NaN
    case Some(a) => a.parsed
  }

  /** The outcome of the four checks, in the order they are made. */
  datatype Verdicts = Verdicts(clientOk: bool, amountOk: bool, nonceOk: bool, emailOk: bool)

  predicate AllPass(v: Verdicts) {
    v.clientOk && v.amountOk && v.nonceOk && v.emailOk
  }

  function Validate(config: Config, body: DonationBody): (v: Verdicts)
    ensures v.clientOk <==> IsValidClient(config, body.clientId)
    ensures v.amountOk <==> IsAmountValid(ParsedAmount(body.amount))
    ensures v.nonceOk <==> body.paymentMethodNonce.Some? && body.paymentMethodNonce.value != ""
    ensures v.emailOk <==> IsEmailValid(body.email)
    ensures AllPass(v) ==>
      && body.clientId.Some? && body.clientId.value in config
      && body.amount.Some? && body.paymentMethodNonce.Some? && body.email.Some?
  {
    AbsentEmailIsInvalid();
    Verdicts(
      IsValidClient(config, body.clientId),
      IsAmountValid(ParsedAmount(body.amount)),
      StringTruthy(body.paymentMethodNonce),
      IsEmailValid(body.email))
  }

  // The two longer fragments are written as two literals each: the verifier
  // only exposes the individual characters of short literals, and the proofs
  // below that the fragments can be told apart read their characters.

  const ClientFragment := "Please provide a clientId. "
  /** The minimum amount, 1, is written into the text by `concat`. */
  const AmountFragment := "Invalid amount - please provide " + "an amount greater than 1. "
  const NonceFragment := "Nonce field cannot be empty. "
  const EmailFragment := "Please ensure you provide " + "a valid email address. "
  const InvalidParamsPrefix := "Invalid params in the request body: "

  function Fragment(ok: bool, text: string): string {
    if ok then "" else text
  }

  /** One fragment per failed check, in the order client, amount, nonce, e-mail. */
  function ValidationMessage(v: Verdicts): string {
    Fragment(v.clientOk, ClientFragment) + Fragment(v.amountOk, AmountFragment)
      + Fragment(v.nonceOk, NonceFragment) + Fragment(v.emailOk, EmailFragment)
  }

  /** The checks of `postDonation`, building the message one fragment at a time. */
  method CollectValidationMessage(config: Config, body: DonationBody) returns (message: string)
    ensures message == ValidationMessage(Validate(config, body))
    ensures message == "" <==> AllPass(Validate(config, body))
  {
    ghost var v := Validate(config, body);
    message := "";
    if !IsValidClient(config, body.clientId) {
      message := message + ClientFragment;
    }
    AppendFragment("", v.clientOk, ClientFragment);
    ghost var m1 := message;
    if !IsAmountValid(ParsedAmount(body.amount)) {
      message := message + AmountFragment;
    }
    AppendFragment(m1, v.amountOk, AmountFragment);
    ghost var m2 := message;
    if !StringTruthy(body.paymentMethodNonce) {
      message := message + NonceFragment;
    }
    AppendFragment(m2, v.nonceOk, NonceFragment);
    ghost var m3 := message;
    if !IsEmailValid(body.email) {
      message := message + EmailFragment;
    }
    AppendFragment(m3, v.emailOk, EmailFragment);
    LeadingEmpty(Fragment(v.clientOk, ClientFragment));
    MessageEmptyIffAllPass(v);
  }

  /** `message.concat(f)` when the check failed, nothing when it passed. */
  lemma AppendFragment(m: string, ok: bool, f: string)
    ensures (if ok then m else m + f) == m + Fragment(ok, f)
  {
    if ok {
      assert m + "" == m;
    }
  }

  lemma LeadingEmpty(m: string)
    ensures "" + m == m
  {
  }

  lemma MessageEmptyIffAllPass(v: Verdicts)
    ensures ValidationMessage(v) == "" <==> AllPass(v)
  {
    assert |ValidationMessage(v)| == |Fragment(v.clientOk, ClientFragment)| + |Fragment(v.amountOk, AmountFragment)|
      + |Fragment(v.nonceOk, NonceFragment)| + |Fragment(v.emailOk, EmailFragment)|;
  }

  /** Whether `m` starts with fragment `f`, and what is left of `m` once it is removed. */
  function Strip(f: string, m: string): (bool, string) {
    if f <= m then (true, m[|f|..]) else (false, m)
  }

  /** Reads back, fragment by fragment, which checks a validation message reports as failed. */
  function DecodeVerdicts(message: string): Verdicts {
    var (clientBad, m1) := Strip(ClientFragment, message);
    var (amountBad, m2) := Strip(AmountFragment, m1);
    var (nonceBad, m3) := Strip(NonceFragment, m2);
    var (emailBad, _) := Strip(EmailFragment, m3);
    Verdicts(!clientBad, !amountBad, !nonceBad, !emailBad)
  }

  /** `f` is not a prefix of `t` when they differ at position `k`. */
  lemma DiffersAt(f: string, t: string, k: nat)
    requires k < |f| && k < |t| && f[k] != t[k]
    ensures !(f <= t)
  {
  }

  /** Decoding one fragment: it is read exactly when it is there, and what follows it is left. */
  lemma DecodeStep(ok: bool, f: string, rest: string)
    requires f != "" && !(f <= rest)
    ensures Strip(f, Fragment(ok, f) + rest) == (!ok, rest)
  {
    if !ok {
      assert (f + rest)[..|f|] == f;
      assert (f + rest)[|f|..] == rest;
    } else {
      assert Fragment(ok, f) + rest == rest;
    }
  }

  lemma MessageFromTheRight(v: Verdicts)
    ensures ValidationMessage(v) ==
      Fragment(v.clientOk, ClientFragment) + (Fragment(v.amountOk, AmountFragment)
        + (Fragment(v.nonceOk, NonceFragment) + Fragment(v.emailOk, EmailFragment)))
  {
    Regroup(Fragment(v.clientOk, ClientFragment), Fragment(v.amountOk, AmountFragment),
      Fragment(v.nonceOk, NonceFragment), Fragment(v.emailOk, EmailFragment));
  }

  lemma Regroup(a: string, b: string, c: string, d: string)
    ensures a + b + c + d == a + (b + (c + d))
  {
  }

  // What may follow a fragment in a message starts with a character that
  // fragment does not have at that position.

  lemma NonceFragmentNotAhead(emailOk: bool)
    ensures !(NonceFragment <= Fragment(emailOk, EmailFragment))
  {
    if !emailOk {
      DiffersAt(NonceFragment, EmailFragment, 0);
    }
  }

  lemma AmountFragmentNotAhead(nonceOk: bool, emailOk: bool)
    ensures !(AmountFragment <= Fragment(nonceOk, NonceFragment) + Fragment(emailOk, EmailFragment))
  {
    var t := Fragment(nonceOk, NonceFragment) + Fragment(emailOk, EmailFragment);
    if !nonceOk {
      assert t[0] == NonceFragment[0];
      DiffersAt(AmountFragment, t, 0);
    } else if !emailOk {
      assert t == EmailFragment;
      DiffersAt(AmountFragment, t, 0);
    }
  }

  lemma ClientFragmentNotAhead(amountOk: bool, nonceOk: bool, emailOk: bool)
    ensures !(ClientFragment <= Fragment(amountOk, AmountFragment) + Fragment(nonceOk, NonceFragment)
                                + Fragment(emailOk, EmailFragment))
  {
    var rest := Fragment(nonceOk, NonceFragment) + Fragment(emailOk, EmailFragment);
    var t := Fragment(amountOk, AmountFragment) + rest;
    if !amountOk {
      assert t[0] == AmountFragment[0];
      DiffersAt(ClientFragment, t, 0);
    } else if !nonceOk {
      assert t[0] == NonceFragment[0];
      DiffersAt(ClientFragment, t, 0);
    } else if !emailOk {
      assert t == EmailFragment;
      DiffersAt(ClientFragment, t, 7);
    }
  }

  lemma {:induction false} MessageDeterminesVerdicts(v: Verdicts)
    ensures DecodeVerdicts(ValidationMessage(v)) == v
  {
    var t4 := Fragment(v.emailOk, EmailFragment);
    var t3 := Fragment(v.nonceOk, NonceFragment) + t4;
    var t2 := Fragment(v.amountOk, AmountFragment) + t3;
    MessageFromTheRight(v);
    ClientFragmentNotAhead(v.amountOk, v.nonceOk, v.emailOk);
    DecodeStep(v.clientOk, ClientFragment, t2);
    AmountFragmentNotAhead(v.nonceOk, v.emailOk);
    DecodeStep(v.amountOk, AmountFragment, t3);
    NonceFragmentNotAhead(v.emailOk);
    DecodeStep(v.nonceOk, NonceFragment, t4);
    DecodeStep(v.emailOk, EmailFragment, "");
  }

  // ---- postDonation: the charge ----------------------------------------------------

  /** The charge `postDonation` submits: the request's fields, the client id as the company, settled at once. */
  function ChargeFor(body: DonationBody): (c: Charge)
    ensures c.submitForSettlement
    ensures c.customer.company == body.clientId
    ensures RequestOfCharge(c) == body
  {
    Charge(
      body.amount,
      body.orderId,
      Customer(body.firstname, body.lastname, body.email, body.clientId),
      body.paymentMethodNonce,
      true)
  }

  /** The request fields a charge carries, read back from it. */
  function RequestOfCharge(c: Charge): DonationBody {
    DonationBody(
      c.amount, c.orderId, c.customer.firstName, c.customer.lastName,
      c.customer.email, c.customer.company, c.paymentMethodNonce)
  }

  // ---- postDonation: the response ---------------------------------------------------

  const RejectedText := "Payment gateway rejected this transaction"
  const OkText := "OK"

  /** `send(result.message)`: an absent message sends nothing. */
  function MessageBody(message: Option<string>): (b: Body)
    ensures b == NoContent <==> message.None?
    ensures message.Some? ==> b == Text(message.value)
  {
    match message
    case None => NoContent
    case Some(m) => Text(m)
  }

  /**
   * The sale callback throws a TypeError before sending: `result.success` on a
   * missing result, or `result.transaction.id` on a successful result without
   * a `transaction` object.
   */
  predicate SaleCallbackThrows(outcome: SaleOutcome): (r: bool)
    ensures r ==> !outcome.SaleFailed?
    ensures outcome.SaleResult? && !outcome.success ==> !r
    ensures outcome.SaleResult? && outcome.transaction.Some? ==> !r
    ensures outcome.SaleResult? && outcome.success && !r ==> outcome.transaction.Some?
  {
    outcome.NoResult? || (outcome.SaleResult? && outcome.success && outcome.transaction.None?)
  }

  /** The response of `postDonation` to `body`, when the sale (if one is made) ends in `outcome`. */
  function DonationReply(config: Config, body: DonationBody, outcome: SaleOutcome): (r: Reply)
    ensures r.headers == CorsHeaders
    ensures r.Threw? <==> AllPass(Validate(config, body)) && SaleCallbackThrows(outcome)
    ensures r.Sent? ==> r.status == 200 || r.status == 400 || r.status == 500
    ensures !AllPass(Validate(config, body)) ==>
      r == Sent(CorsHeaders, 400, Text(InvalidParamsPrefix + ValidationMessage(Validate(config, body))))
    ensures r.Sent? && r.status == 500 <==> AllPass(Validate(config, body)) && outcome.SaleFailed?
    ensures r.Sent? && r.status == 500 ==> r.body == Text(RejectedText)
    ensures r.Sent? && r.status == 200 <==>
      AllPass(Validate(config, body)) && outcome.SaleResult? && outcome.success && outcome.transaction.Some?
    ensures r.Sent? && r.status == 200 ==> r.body == Text(OkText)
    ensures AllPass(Validate(config, body)) && outcome.SaleResult? && !outcome.success ==>
      r == Sent(CorsHeaders, 400, MessageBody(outcome.message))
  {
    var v := Validate(config, body);
    if !AllPass(v) then
      Sent(CorsHeaders, 400, Text(InvalidParamsPrefix + ValidationMessage(v)))
    else
      match outcome
      case SaleFailed(_) => Sent(CorsHeaders, 500, Text(RejectedText))
      case NoResult => Threw(CorsHeaders)
      case SaleResult(success, transaction, message) =>
        if !success then Sent(CorsHeaders, 400, MessageBody(message))
        else if transaction.None? then Threw(CorsHeaders)
        else Sent(CorsHeaders, 200, Text(OkText))
  }

  /**
   * `postDonation`. `charge` is the charge submitted to the gateway, if any;
   * `outcome` is what that submission yields; `threw` says whether the sale
   * callback threw before anything was sent.
   */
  method PostDonation(config: Config, body: DonationBody, outcome: SaleOutcome, res: Response)
    returns (charge: Option<Charge>, threw: bool)
    requires res.sendCount == 0
    modifies res
    ensures charge == if AllPass(Validate(config, body)) then Some(ChargeFor(body)) else None
    ensures threw <==> AllPass(Validate(config, body)) && SaleCallbackThrows(outcome)
    ensures var r := DonationReply(config, body, outcome);
      && res.headers == WithHeaders(old(res.headers), r.headers)
      && (r.Sent? ==> res.status == Some(r.status) && res.body == Some(r.body) && res.sendCount == 1)
      && (r.Threw? ==> res.status == old(res.status) && res.body == old(res.body) && res.sendCount == 0)
  {
    ghost var r := DonationReply(config, body, outcome);
    ghost var v := Validate(config, body);
    SetCorsHeaders(res);
    var message := CollectValidationMessage(config, body);
    if message != "" {
      assert r == Sent(CorsHeaders, 400, Text(InvalidParamsPrefix + ValidationMessage(v)));
      res.Status(400);
      res.Send(Text(InvalidParamsPrefix + message));
      return None, false;
    }
    assert AllPass(v);
    charge, threw := Some(ChargeFor(body)), false;
    match outcome {
      case SaleFailed(_) =>
        assert r == Sent(CorsHeaders, 500, Text(RejectedText));
        res.Status(500);
        res.Send(Text(RejectedText));
      case NoResult =>
        assert r == Threw(CorsHeaders);
        threw := true;
      case SaleResult(success, transaction, resultMessage) =>
        if !success {
          assert r == Sent(CorsHeaders, 400, MessageBody(resultMessage));
          res.Status(400);
          res.Send(MessageBody(resultMessage));
        } else if transaction.None? {
          assert r == Threw(CorsHeaders);
          threw := true;
        } else {
          assert r == Sent(CorsHeaders, 200, Text(OkText));
          res.Status(200);
          res.Send(Text(OkText));
        }
    }
  }

  // ---- properties relating the two handlers ------------------------------------------

  /** The gateway's error detail never reaches the caller of `postDonation`. */
  lemma GatewayErrorNotEchoed(config: Config, body: DonationBody, e1: GatewayError, e2: GatewayError)
    ensures DonationReply(config, body, SaleFailed(e1)) == DonationReply(config, body, SaleFailed(e2))
  {
  }

  /**
   * `postDonation` sets the CORS headers before validating, `getToken` only
   * after: an invalid client id gets them from the one and not from the other.
   */
  lemma CorsHeadersAsymmetry(
    config: Config, query: Option<Query>, tokenOutcome: TokenOutcome,
    body: DonationBody, saleOutcome: SaleOutcome)
    requires !IsValidClient(config, QueryClientId(query))
    requires !IsValidClient(config, body.clientId)
    ensures TokenReply(config, query, tokenOutcome).headers == []
    ensures DonationReply(config, body, saleOutcome).headers == CorsHeaders
  {
  }
}
