# Basil donations endpoint, modelled in Dafny

The endpoint is a pair of cloud-function HTTP handlers in front of a card
payment gateway (index.js).

- `getToken` checks the `clientId` query parameter against the client
  configuration. For a known client it asks the gateway for a client token and
  answers 200 with it as JSON, or 400 with the gateway's error.
- `postDonation` always sets the CORS headers first. It then runs four checks
  on the request body, in order: known client, amount between 1 and 1000000,
  a payment nonce, a well-formed e-mail address. Each failed check adds a fixed
  sentence to a message, and a non-empty message gives 400. Otherwise the
  handler submits a sale for settlement and maps the gateway's answer to a
  status:
  - error: 500 with a fixed rejection text;
  - `success`: 200 "OK", once the transaction id has been read for the log;
  - otherwise: 400 with the gateway's message.
- `getTopic` resolves a publish/subscribe topic by creating it. It treats the
  409 "already exists" conflict as success.

The modules:

- **JsValues**: the JavaScript values the code inspects:
  - absent values (`undefined`) as `Option`;
  - numbers as NaN, the infinities or a real;
  - truthiness;
  - the text `String(undefined)`.
- **EmailSyntax**: the e-mail pattern of `isEmailValid`, stated twice and
  proved equal for every string:
  - as ghost predicates that follow the regular expression's structure and
    choose split points existentially;
  - as compiled checkers that split at the first '.' or the last '@'.
- **Validators**: `isValidClient`, `isAmountValid` and `isEmailValid` as
  functions.
- **Gateway**: what the handlers send to the gateway and what its callbacks
  receive.
- **Http**: the response object, a class with `headers`, `status`, `body`
  and a count of `send` calls.
- **Handlers**: `getToken` and `postDonation` as methods acting on a `Response`.
  - Each method is specified by a pure reply function (`TokenReply`,
    `DonationReply`) whose contract states the status and body mapping.
  - The validation message is proved to determine exactly which checks
    failed: `DecodeVerdicts(ValidationMessage(v)) == v`.
- **Topics**: `getTopic`'s resolution of the creation outcome.
- **Scenarios**: the expectations of index.test.js, stated as lemmas and as
  methods that run a handler on a fresh response.

Two behaviours of the code worth noting:
- The amount range is inclusive at both ends (`amount < min || amount > max`
  rejects), so 1 and 1000000 are accepted.
- On a creation error other than 409, `getTopic` passes on whatever topic
  value came with the error, not necessarily none.

## Model

| member | source | states |
|---|---|---|
| Validators.IsValidClient | index.js:128-133 | true exactly when the id is present, non-empty and has an entry in the configuration |
| Validators.IsAmountValid | index.js:148-153 | true exactly when the parsed amount is a finite number with 1 <= amount <= 1000000; NaN, the infinities and zero are rejected |
| Validators.IsEmailValid | index.js:155-158 | true exactly when the text of the value (an absent value reads "undefined") matches the address pattern |
| Validators.NoAtSignIsInvalid | index.js:155-158 | a value whose text has no '@' is never a valid address |
| Validators.AbsentEmailIsInvalid | index.js:155-158 | an absent e-mail is invalid, since "undefined" has no '@' (the expectation of index.test.js:97-100) |
| EmailSyntax.IndexOf | index.js:156 | the position of the first occurrence of a character, or the length when there is none |
| EmailSyntax.LastIndexOf | index.js:156 | the position of the last occurrence of a character, or -1 when there is none |
| EmailSyntax.IndexOfIs | index.js:156 | any position holding the character with none before it is the first occurrence |
| EmailSyntax.DotAtomAtFirstDot | index.js:156 | a dot-separated atom sequence matches exactly when it matches split at its first '.' |
| EmailSyntax.IsDotAtom | index.js:156 | decides the `[^…]+(\.[^…]+)*` local part exactly |
| EmailSyntax.IsLocalPart | index.js:156 | decides the local part (dot-atoms or a non-empty quoted run) exactly |
| EmailSyntax.DottedGroupsAtFirstDot | index.js:156 | dot-separated digit groups match exactly when split at the first '.' |
| EmailSyntax.DottedGroupsChars | index.js:156 | dotted digit groups contain only digits and dots |
| EmailSyntax.IsDottedGroups | index.js:156 | decides a run of 1-3 digit groups separated by dots exactly |
| EmailSyntax.AddressLiteralHasNoAt | index.js:156 | a bracketed address literal contains no '@' |
| EmailSyntax.IsAddressLiteral | index.js:156 | decides the `[d.d.d.d]` domain literal exactly |
| EmailSyntax.HostNameAtFirstDot | index.js:156 | a host name matches exactly when split at its first '.' |
| EmailSyntax.HostNameChars | index.js:156 | a host name contains only letters, digits, '-' and '.' |
| EmailSyntax.IsHostName | index.js:156 | decides `([a-zA-Z\-0-9]+\.)+[a-zA-Z]{2,}` exactly |
| EmailSyntax.DomainHasNoAt | index.js:156 | no domain contains '@' |
| EmailSyntax.IsDomain | index.js:156 | decides the domain alternative exactly |
| EmailSyntax.EmailAtLastAt | index.js:156 | an address matches exactly when it matches split at its last '@' |
| EmailSyntax.EmailPatternTest | index.js:156-157 | decides the whole anchored pattern exactly |
| EmailSyntax.NoAtSignNoMatch | index.js:156 | a string without '@' does not match |
| Handlers.WithOneMoreHeader | index.js:19-20 | setting one more header updates the map after the earlier ones |
| Handlers.SetCorsHeaders | index.js:35-36 | sets the two CORS headers in order and changes nothing else on the response |
| Handlers.QueryClientId | index.js:13 | a missing query object reads as the empty id; a query without `clientId` reads as an absent id; otherwise the parameter's value; the id is falsy exactly in those two cases or when the parameter is empty |
| Handlers.TokenReply | index.js:11-31 | status is 200 or 400; an invalid client gives 400 with the fixed text and no header; CORS headers are set exactly for a valid client; 200 exactly for a valid client with an issued token, with the JSON content type and the token; a gateway error gives 400 with the error |
| Handlers.GetToken | index.js:11-31 | the gateway is asked exactly when the client is valid; the response ends with TokenReply's headers, status and body and one send |
| Handlers.ParsedAmount | index.js:149 | an absent amount parses to NaN, which the amount check rejects; a present one to the number its text parses to |
| Handlers.Validate | index.js:49-52 | the four verdicts are the client, amount, nonce (present and non-empty) and e-mail checks; when all pass, the client id has a configuration entry and the amount, nonce and e-mail are all present |
| Handlers.CollectValidationMessage | index.js:48-52 | the message is the fragments of the failed checks in the order client, amount, nonce, e-mail, and is empty exactly when all checks pass |
| Handlers.AppendFragment | index.js:49-52 | appending a fragment when a check fails is concatenating its conditional fragment |
| Handlers.MessageEmptyIffAllPass | index.js:54 | the message is empty exactly when all four checks pass |
| Handlers.DecodeStep | index.js:49-52 | a fragment is recognised at the head of a message exactly when its check failed |
| Handlers.MessageFromTheRight | index.js:49-52 | the message regroups as the client fragment followed by the rest |
| Handlers.NonceFragmentNotAhead | index.js:51-52 | the e-mail fragment does not start with the nonce fragment |
| Handlers.AmountFragmentNotAhead | index.js:50-52 | what follows the amount fragment never starts with it |
| Handlers.ClientFragmentNotAhead | index.js:49-52 | what follows the client fragment never starts with it |
| Handlers.MessageDeterminesVerdicts | index.js:48-52 | the message tells exactly which checks failed: decoding it gives back the four verdicts |
| Handlers.ChargeFor | index.js:58-71 | the charge is submitted for settlement, its customer's company is the client id, and every body field is carried over unchanged (the body can be read back from the charge) |
| Handlers.SaleCallbackThrows | index.js:78-79 | the sale callback throws only when the gateway reported no error; a declined result or a result carrying a `transaction` object never throws; a successful result that does not throw carries a transaction |
| Handlers.MessageBody | index.js:86 | sending `result.message` sends nothing exactly when the message is absent, otherwise its text |
| Handlers.DonationReply | index.js:33-90 | CORS headers always; nothing is sent exactly when a valid request's sale callback gets no result, or a successful result without a `transaction` object (the callback throws); otherwise status is 200, 400 or 500; failed validation gives 400 with the prefixed message; 500 exactly for a valid request with a gateway error, with the fixed rejection text; 200 "OK" exactly for a valid request with a successful result carrying a transaction; an unsuccessful result gives 400 with the gateway's message |
| Handlers.PostDonation | index.js:33-90 | a charge is submitted exactly when validation passes, and it is ChargeFor of the body; `threw` exactly when the sale callback throws; the response ends with DonationReply's headers, then its status and body and one send, or no status and no send when the callback threw |
| Handlers.GatewayErrorNotEchoed | index.js:73-76 | the reply to a gateway error does not depend on the error |
| Handlers.CorsHeadersAsymmetry | index.js:14-20 | for an invalid client `getToken` sets no header while `postDonation` sets the CORS headers |
| Topics.GetTopic | index.js:115-124 | no error exactly when creation succeeded or failed with 409; a 409 gives the existing topic of that name; another error is passed on with its topic value; a creation gives the created topic |
| Scenarios.ClientIdExamples | index.test.js:54-62 | "nonvalidid" is rejected and "stroke-association" accepted |
| Scenarios.AmountExamples | index.test.js:77-95 | 'icknum' (NaN), 0.43 and 1000001 are rejected, 10.95 accepted |
| Scenarios.EmailWithoutAtSignExample | index.test.js:102-105 | "jobloggs-jobloggs.com" is invalid |
| Scenarios.WellFormedEmailExample | index.test.js:107-110 | "louise.ryan@addition.london" is valid |
| Scenarios.GoodBodyPasses | index.test.js:115 | the tests' donation body passes all four checks |
| Scenarios.CorsHeadersOnFreshResponse | index.js:35-36 | a fresh response carries exactly the two CORS headers after they are set |
| Scenarios.TokenWithoutClientId | index.test.js:46-52 | an empty query gives 400, one send and no header |
| Scenarios.TokenGatewayError | index.test.js:64-72 | a token generation error gives 400 with the error, one send |
| Scenarios.DonationGatewayError | index.test.js:117-126 | a sale error gives 500 with "Payment gateway rejected this transaction", one send |
| Scenarios.DonationDeclined | index.test.js:128-136 | `success: false` gives 400, one send |
| Scenarios.DonationApproved | index.test.js:138-146 | `success: true` gives 200 "OK" with the CORS headers, one send, and the charge was submitted for settlement |
| Scenarios.DonationApprovedWithoutTransaction | index.js:78-82 | `success: true` without a `transaction` object: the charge was submitted, the callback throws, no status is set and nothing is sent |

## Left out

- The payment gateway client (`braintree.connect`, `clientToken.generate`, `transaction.sale`) and the publish/subscribe client (`createTopic`, `topic`, `publish`): foreign SDK calls. Their callback arguments are inputs (`TokenOutcome`, `SaleOutcome`, `CreateOutcome`), and each callback runs once, synchronously, as in the unit tests.
- `loadGateway` (index.js:135-144): it only forwards configuration fields to the gateway client and logs. The handlers return whether they would call it (`tokenRequested`, `charge`).
- `publishDonationMessage` (index.js:92-112): never called, since its only call is commented out at index.js:81; it only publishes and logs. Its topic resolution, `getTopic`, is modelled.
- All `console.log` output.
- `parseFloat`: the string-to-double conversion is floating point. An amount carries its text and the number it parses to, and amounts are reals rather than IEEE doubles.
- The regular-expression engine: the pattern is written directly as predicates over characters. JavaScript strings are UTF-16 code units, while Dafny's `char` is a code point. The pattern only tests characters individually, so this makes no difference for text without surrogate pairs.
- Object-lookup quirks of `config[clientId]`: inherited keys such as "toString" would count as present in JavaScript. The configuration is a `map`, and a configuration entry is always truthy.
- Request fields that are not strings: every body field (`amount` aside, which carries its parsed number) and the `clientId` query parameter are optional strings, with truthiness as non-empty. JSON `null`, numbers, arrays and objects are not represented. In particular `isEmailValid` coerces its argument with `String()`, so `null` is tested as "null" and a one-element array as its element's text; the model only covers the absent value ("undefined") and strings.
- A gateway error is modelled as present or absent; a falsy error value such as `0` or `""` alongside a result is not represented.
- The loaded configuration file `config.default.json` is not part of this model. The configuration is a parameter, and the scenarios use a one-client sample.
- Asynchronous ordering between a handler's completion and any later publishing.
- gatewayLoader.js: dead code; its import is commented out at index.js:3.
- Response.Set: Express refuses headers after the response is sent. The model requires that nothing was sent yet, which both handlers guarantee.
