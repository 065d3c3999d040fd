/**
 * The three input validators of the donation endpoint: client id lookup,
 * amount range and e-mail syntax. All are total: absent or malformed input
 * gives false, never an error.
 */
module Validators {
  import opened JsValues
  import opened EmailSyntax

  /** The per-client settings kept in the configuration file. */
  datatype ClientConfig = ClientConfig(
    merchantId: string,
    publicKey: string,
    privateKey: string,
    topicName: Option<string>)

  /** The configuration: client id to settings. */
  type Config = map<string, ClientConfig>

  /** The accepted donation range, both ends included. */
  const MinAmount: real := 1.0
  const MaxAmount: real := 1000000.0

  /** `isValidClient`: a non-empty id that has an entry in the configuration. */
  function IsValidClient(config: Config, clientId: Option<string>): (r: bool)
    ensures r <==> exists id | id in config :: id != "" && clientId == Some(id)
  {
    if !StringTruthy(clientId) then false
    else clientId.value in config
  }

  /**
   * `isAmountValid`, given what `parseFloat` made of the amount: falsy numbers
   * (NaN and zero) are rejected, then anything below the minimum or above the
   * maximum. Since the minimum is positive the zero test is subsumed.
   */
  function IsAmountValid(amount: JsNumber): (r: bool)
    ensures r <==> amount.Finite? && MinAmount <= amount.value <= MaxAmount
  {
    if !NumberTruthy(amount) then false
    else if LessThan(amount, MinAmount) || GreaterThan(amount, MaxAmount) then false
    else true
  }

  /**
   * `isEmailValid`: the address pattern tested on the text of the value; an
   * absent value is tested as the text "undefined".
   */
  function IsEmailValid(email: Option<string>): (r: bool)
    ensures r <==> EmailPattern(ToText(email))
  {
    EmailPatternTest(ToText(email))
  }

  /** Without an '@' there is no valid address; in particular an absent one is invalid. */
  lemma NoAtSignIsInvalid(email: Option<string>)
    requires forall k | 0 <= k < |ToText(email)| :: ToText(email)[k] != '@'
    ensures !IsEmailValid(email)
  {
  }

  lemma AbsentEmailIsInvalid()
    ensures !IsEmailValid(None)
  {
    NoAtSignIsInvalid(None);
  }
}
