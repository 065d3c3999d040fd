/**
 * The expectations of the repository's unit tests, stated against the model:
 * the validators on the tests' sample values, and each handler run on a fresh
 * response with the gateway outcome the test's stub produces.
 */
module Scenarios {
  import opened JsValues
  import opened EmailSyntax
  import opened Validators
  import opened Gateway
  import opened Http
  import opened Handlers

  /** A configuration with the one client the tests use. */
  const TestClient := "stroke-association"
  const TestConfig: Config := map[TestClient := ClientConfig("merchant", "public-key", "private-key", None)]

  lemma ClientIdExamples()
    ensures !IsValidClient(TestConfig, Some("nonvalidid"))
    ensures IsValidClient(TestConfig, Some(TestClient))
  {
  }

  lemma AmountExamples()
    ensures !IsAmountValid(NaN)                   // parseFloat('icknum')
    ensures !IsAmountValid(Finite(0.43))
    ensures !IsAmountValid(Finite(1000001.0))
    ensures IsAmountValid(Finite(10.95))
  {
  }

  lemma EmailWithoutAtSignExample()
    ensures !IsEmailValid(Some("jobloggs-jobloggs.com"))
  {
    var s := "jobloggs-jobloggs.com";
    assert forall k | 0 <= k < |s| :: s[k] != '@' by {
      forall k | 0 <= k < |s| ensures s[k] != '@' {
        assert s[k] in {'j', 'o', 'b', 'l', 'g', 's', '-', '.', 'c', 'm'};
      }
    }
    NoAtSignIsInvalid(Some(s));
  }

  lemma WellFormedEmailExample()
    ensures IsEmailValid(Some("louise.ryan@addition.london"))
  {
    var s := "louise.ryan@addition.london";
    var local, domain := s[..11], s[12..];
    assert local == "louise" + "." + "ryan";
    assert domain == "addition" + "." + "london";
    assert Atom(local[7..]);
    assert DotAtomSplit(local, 6);
    assert HostSplit(domain, 8);
    assert EmailSplit(s, 11);
  }

  // ---- the handlers, run once on a fresh response ----------------------------------

  /** The request body of the donation tests. */
  const GoodBody := DonationBody(
    Some(AmountField("3", Finite(3.0))), None, None, None,
    Some("louise.ryan@addition.london"), Some(TestClient), Some("nonce"))

  lemma GoodBodyPasses()
    ensures AllPass(Validate(TestConfig, GoodBody))
  {
    assert IsValidClient(TestConfig, Some(TestClient));
    assert IsAmountValid(Finite(3.0));
    WellFormedEmailExample();
  }

  /** Setting the CORS headers on a response that has none. */
  lemma CorsHeadersOnFreshResponse()
    ensures WithHeaders(map[], CorsHeaders) == map[AllowOrigin := "*", AllowMethods := "GET, POST"]
  {
    assert CorsHeaders[..1] == [Header(AllowOrigin, "*")];
    assert CorsHeaders[..1][..0] == [];
    assert WithHeaders(map[], CorsHeaders[..1]) == map[AllowOrigin := "*"];
  }

  /** A token request with an empty query: 400, one send, no header set. */
  method TokenWithoutClientId() returns (status: Option<int>, sends: nat, headers: map<string, string>)
    ensures status == Some(400) && sends == 1 && headers == map[]
  {
    var res := new Response();
    var _ := GetToken(TestConfig, Some(map[]), TokenIssued(TokenResponse("token")), res);
    status, sends, headers := res.status, res.sendCount, res.headers;
  }

  /** A token request for a known client whose token generation fails: 400, one send. */
  method TokenGatewayError() returns (status: Option<int>, sends: nat, body: Option<Body>)
    ensures status == Some(400) && sends == 1
    ensures body == Some(ErrorObject(GatewayError("oh dear")))
  {
    var res := new Response();
    var requested := GetToken(TestConfig, Some(map["clientId" := TestClient]), TokenFailed(GatewayError("oh dear")), res);
    status, sends, body := res.status, res.sendCount, res.body;
  }

  /** A valid donation whose sale reports an error: 500 with the fixed rejection text. */
  method DonationGatewayError() returns (status: Option<int>, sends: nat, body: Option<Body>)
    ensures status == Some(500) && sends == 1
    ensures body == Some(Text("Payment gateway rejected this transaction"))
  {
    GoodBodyPasses();
    var res := new Response();
    var charge, threw := PostDonation(TestConfig, GoodBody, SaleFailed(GatewayError("oh dear")), res);
    status, sends, body := res.status, res.sendCount, res.body;
  }

  /** A valid donation the gateway declines without a message: 400, one send. */
  method DonationDeclined() returns (status: Option<int>, sends: nat)
    ensures status == Some(400) && sends == 1
  {
    GoodBodyPasses();
    var res := new Response();
    var charge, threw := PostDonation(TestConfig, GoodBody, SaleResult(false, None, None), res);
    status, sends := res.status, res.sendCount;
  }

  /** A valid donation the gateway accepts: 200 "OK" with the CORS headers, and the charge was submitted. */
  method DonationApproved() returns (status: Option<int>, sends: nat, body: Option<Body>, headers: map<string, string>, submitted: bool)
    ensures status == Some(200) && sends == 1 && body == Some(Text("OK"))
    ensures headers == map[AllowOrigin := "*", AllowMethods := "GET, POST"]
    ensures submitted
  {
    GoodBodyPasses();
    CorsHeadersOnFreshResponse();
    var res := new Response();
    var charge, threw := PostDonation(TestConfig, GoodBody, SaleResult(true, Some(Transaction(Some("fauxId"))), None), res);
    status, sends, body, headers := res.status, res.sendCount, res.body, res.headers;
    submitted := charge.Some? && charge.value.submitForSettlement;
  }

  /**
   * A valid donation whose successful result has no `transaction` object: the
   * callback throws on `result.transaction.id`, so no status is set and nothing
   * is sent, although the charge was submitted.
   */
  method DonationApprovedWithoutTransaction() returns (status: Option<int>, sends: nat, submitted: bool, threw: bool)
    ensures status == None && sends == 0
    ensures submitted && threw
  {
    GoodBodyPasses();
    var res := new Response();
    var charge;
    charge, threw := PostDonation(TestConfig, GoodBody, SaleResult(true, None, None), res);
    status, sends := res.status, res.sendCount;
    submitted := charge.Some?;
  }
}
