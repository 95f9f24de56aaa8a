/** The payment-gateway side of StripeService
    (src/Service/StripeService.php, `processCardPayment` and `refundCharge`):
    validate the card locally, ask the gateway for a card token, charge it,
    and translate the gateway's error texts into user-facing messages by
    first-match keyword rules. The HTTP exchanges themselves are not
    modelled: what the gateway answers is a parameter (an oracle), and
    every request is appended to a call log. */
module Stripe {
  import opened Common
  import opened PhpValues
  import opened Cards

  // ---------------------------------------------------------------------
  // First-match keyword rules

  /** A message replaces an error text when the text contains, ignoring
      case, any one of the keywords. */
  datatype Rule = Rule(keywords: seq<string>, message: string)

  predicate RuleMatches(rule: Rule, error: string)
  {
    exists k :: 0 <= k < |rule.keywords| && ContainsIgnoringCase(error, rule.keywords[k])
  }

  /** The error text after the rules: the message of the first rule that
      matches, or the text itself when none does. */
  function MapError(rules: seq<Rule>, error: string): string
  {
    if rules == [] then error
    else if RuleMatches(rules[0], error) then rules[0].message
    else MapError(rules[1..], error)
  }

  /** When no rule matches, the text is kept. */
  lemma {:induction false} MapErrorNoMatch(rules: seq<Rule>, error: string)
    requires forall k :: 0 <= k < |rules| ==> !RuleMatches(rules[k], error)
    ensures MapError(rules, error) == error
  {
    if rules != [] {
      assert forall k :: 0 <= k < |rules| - 1 ==> rules[1..][k] == rules[k + 1];
      MapErrorNoMatch(rules[1..], error);
    }
  }

  /** The first matching rule decides, whatever follows it. */
  lemma {:induction false} MapErrorFirstMatch(rules: seq<Rule>, error: string, k: int)
    requires 0 <= k < |rules| && RuleMatches(rules[k], error)
    requires forall j :: 0 <= j < k ==> !RuleMatches(rules[j], error)
    ensures MapError(rules, error) == rules[k].message
  {
    if k > 0 {
      assert !RuleMatches(rules[0], error);
      var rest := rules[1..];
      assert rest[k - 1] == rules[k];
      assert forall j :: 0 <= j < k - 1 ==> rest[j] == rules[j + 1];
      MapErrorFirstMatch(rest, error, k - 1);
    }
  }

  const DeclinedAtTokenMessage := "Your card was declined. Please check your card details or try a different card."
  const WrongCvcAtTokenMessage := "The security code (CVC) you provided is incorrect."
  const LostCardAtTokenMessage := "This card has been reported as lost. Please use a different card."
  const StolenCardAtTokenMessage := "This card has been reported as stolen. Please use a different card."

  /** How a failed tokenisation is explained (the chain at lines 49-61). */
  const TokenRules: seq<Rule> := [
    Rule(["card_declined", "decline"], DeclinedAtTokenMessage),
    Rule(["incorrect_cvc", "cvc"], WrongCvcAtTokenMessage),
    Rule(["expired_card", "expired"], ExpiredMessage),
    Rule(["invalid_card", "invalid"], InvalidNumberMessage),
    Rule(["lost_card"], LostCardAtTokenMessage),
    Rule(["stolen_card"], StolenCardAtTokenMessage)
  ]

  /** How a failed charge is explained (the chain at lines 85-101). */
  const ChargeRules: seq<Rule> := [
    Rule(["card_declined"], "Your card was declined by your bank. Please try a different card."),
    Rule(["insufficient_funds"], "Your card does not have sufficient funds for this transaction."),
    Rule(["expired_card"], "Your card has expired."),
    Rule(["incorrect_cvc"], "The security code (CVC) is incorrect."),
    Rule(["lost_card"], "This card has been reported as lost."),
    Rule(["stolen_card"], "This card has been reported as stolen."),
    Rule(["generic_decline"], "Your card was declined. Please contact your bank or try a different card."),
    Rule(["rate_limit"], "Too many requests. Please wait a moment and try again.")
  ]

  /** A token error that mentions "decline" in any case is always reported
      as a decline, whatever else it mentions: the first rule wins. */
  lemma TokenDeclineTakesPriority(error: string)
    requires ContainsIgnoringCase(error, "decline")
    ensures MapError(TokenRules, error) == DeclinedAtTokenMessage
  {
    assert TokenRules[0].keywords[1] == "decline";
    assert RuleMatches(TokenRules[0], error);
  }

  /** A text that contains, ignoring case, a word containing a keyword
      contains the keyword. */
  lemma KeywordSubsumes(error: string, word: string, keyword: string, at: int)
    requires 0 <= at <= |word| && keyword <= word[at..]
    ensures ContainsIgnoringCase(error, word) ==> ContainsIgnoringCase(error, keyword)
  {
    SubstringAt(keyword, word, at);
    LowerPreservesSubstring(keyword, word);
    if ContainsIgnoringCase(error, word) {
      ContainsIgnoringCaseTransitive(error, word, keyword);
    }
  }

  /** A rule whose first keyword contains its second matches exactly
      when the second occurs. */
  lemma SubsumedKeywordRule(rule: Rule, error: string, at: int)
    requires |rule.keywords| == 2
    requires 0 <= at <= |rule.keywords[0]| && rule.keywords[1] <= rule.keywords[0][at..]
    ensures RuleMatches(rule, error) <==> ContainsIgnoringCase(error, rule.keywords[1])
  {
    KeywordSubsumes(error, rule.keywords[0], rule.keywords[1], at);
    if ContainsIgnoringCase(error, rule.keywords[1]) {
      assert RuleMatches(rule, error);
    }
  }

  /** Each of the first four token rules pairs a specific keyword with a
      general one that it contains, so the specific keyword never decides
      anything by itself: such a rule matches exactly when the general
      keyword occurs. */
  lemma GeneralKeywordDecides(error: string, i: int)
    requires 0 <= i < 4
    ensures |TokenRules[i].keywords| == 2
    ensures RuleMatches(TokenRules[i], error) <==> ContainsIgnoringCase(error, TokenRules[i].keywords[1])
  {
    var rule := TokenRules[i];
    if i == 0 {
      assert rule.keywords == ["card_declined", "decline"];
      SubsumedKeywordRule(rule, error, 5);
    } else if i == 1 {
      assert rule.keywords == ["incorrect_cvc", "cvc"];
      SubsumedKeywordRule(rule, error, 10);
    } else if i == 2 {
      assert rule.keywords == ["expired_card", "expired"];
      SubsumedKeywordRule(rule, error, 0);
    } else {
      assert rule.keywords == ["invalid_card", "invalid"];
      SubsumedKeywordRule(rule, error, 0);
    }
  }

  // ---------------------------------------------------------------------
  // The gateway

  /** What the token or charge request came back with, as the private
      helpers `createCardToken` and `createPaymentIntent` report it: an id,
      or an error text and an HTTP status. */
  datatype GatewayReply = Approved(id: string) | Refused(error: string, statusCode: int)

  /** One request sent to the gateway. */
  datatype GatewayCall =
    | CreateToken(number: string, expMonth: string, expYear: string, cvc: string)
    | CreateCharge(amount: int, currency: string, source: string, description: string)
    | Refund(chargeId: string)

  datatype ErrorKind = ValidationError | CardError

  /** The array `processCardPayment` returns. `amount` is what the gateway was charged, in cents;
      the source reports that figure divided by 100, which the model does not carry. */
  datatype ChargeOutcome =
    | Paid(transactionId: string, amount: int, currency: string, cardBrand: string, cardLastFour: string)
    | NotPaid(error: string, statusCode: int, kind: ErrorKind)

  /** The outcome together with the requests that produced it, in order. */
  datatype Attempt = Attempt(outcome: ChargeOutcome, calls: seq<GatewayCall>)

  /** `substr($s, -4)`: the last four characters, or all of a shorter string.
      PHP's `substr` counts bytes; this counts characters, so the two agree
      on numbers whose last four characters are single-byte (ASCII). */
  function LastFour(s: string): string
  {
    if |s| <= 4 then s else s[|s| - 4..]
  }

  /** `processCardPayment`: local validation, then a token request, then a
      charge request with the token, each failure explained by its rules;
      on success the brand and the last four characters of the number as
      entered. */
  function CardPayment(card: Fields, amount: int, currency: string, description: string,
                       today: YearMonth, tokenReply: GatewayReply, chargeReply: GatewayReply): (a: Attempt)
    ensures CardDataVerdict(card, today).Invalid?
            ==> a == Attempt(NotPaid(CardDataVerdict(card, today).error, 400, ValidationError), [])
    ensures a.outcome.Paid?
            <==> CardDataVerdict(card, today) == Valid && tokenReply.Approved? && chargeReply.Approved?
    ensures forall c :: c in a.calls ==> !c.Refund?
  {
    var verdict := CardDataVerdict(card, today);
    if verdict.Invalid? then Attempt(NotPaid(verdict.error, 400, ValidationError), [])
    else
      var number := AsText(card["number"]);
      var tokenCall := CreateToken(number, AsText(card["exp_month"]), AsText(card["exp_year"]), AsText(card["cvc"]));
      if tokenReply.Refused? then
        Attempt(NotPaid(MapError(TokenRules, tokenReply.error), 400, CardError), [tokenCall])
      else
        var chargeCall := CreateCharge(amount, currency, tokenReply.id, description);
        if chargeReply.Refused? then
          Attempt(NotPaid(MapError(ChargeRules, chargeReply.error), chargeReply.statusCode, CardError),
                  [tokenCall, chargeCall])
        else
          Attempt(Paid(chargeReply.id, amount, Upper(currency), BrandName(CardBrand(number)), LastFour(number)),
                  [tokenCall, chargeCall])
  }

  /** What a successful payment reports: the charge id, the charge request
      made with the token the gateway issued, the brand of the number, and
      its last four characters. */
  lemma CardPaymentSuccess(card: Fields, amount: int, currency: string, description: string,
                           today: YearMonth, tokenReply: GatewayReply, chargeReply: GatewayReply)
    requires CardPayment(card, amount, currency, description, today, tokenReply, chargeReply).outcome.Paid?
    ensures var a := CardPayment(card, amount, currency, description, today, tokenReply, chargeReply);
            var number := AsText(card["number"]);
            && a.outcome.transactionId == chargeReply.id
            && a.calls == [a.calls[0], CreateCharge(amount, currency, tokenReply.id, description)]
            && a.outcome.currency == Upper(currency)
            && a.outcome.cardBrand == BrandName(CardBrand(number))
            && |a.outcome.cardLastFour| == 4
            && number == number[..|number| - 4] + a.outcome.cardLastFour
  {
    LastFourOfValidNumber(AsText(card["number"]));
  }

  /** Once the card is valid the token is always requested first and at
      most one charge follows; a refused token or charge is explained by
      that stage's rules, and only a refused charge passes the gateway's
      HTTP status on. */
  lemma CardPaymentRefusals(card: Fields, amount: int, currency: string, description: string,
                            today: YearMonth, tokenReply: GatewayReply, chargeReply: GatewayReply)
    requires CardDataVerdict(card, today) == Valid
    ensures var a := CardPayment(card, amount, currency, description, today, tokenReply, chargeReply);
            1 <= |a.calls| <= 2 && a.calls[0].CreateToken?
    ensures var a := CardPayment(card, amount, currency, description, today, tokenReply, chargeReply);
            tokenReply.Refused?
            ==> a.outcome == NotPaid(MapError(TokenRules, tokenReply.error), 400, CardError) && |a.calls| == 1
    ensures var a := CardPayment(card, amount, currency, description, today, tokenReply, chargeReply);
            tokenReply.Approved? && chargeReply.Refused?
            ==> a.outcome == NotPaid(MapError(ChargeRules, chargeReply.error), chargeReply.statusCode, CardError)
                && |a.calls| == 2
  {
  }

  /** What a card payment sends to the gateway: at most a token request
      and a charge request, never a refund; a charge request carries the
      token the gateway issued. */
  lemma CardPaymentRequests(card: Fields, amount: int, currency: string, description: string,
                            today: YearMonth, tokenReply: GatewayReply, chargeReply: GatewayReply)
    ensures var a := CardPayment(card, amount, currency, description, today, tokenReply, chargeReply);
            && |a.calls| <= 2 && RefundCount(a.calls) == 0
            && (|a.calls| == 2 ==> tokenReply.Approved? && a.calls[1] == CreateCharge(amount, currency, tokenReply.id, description))
  {
    if CardDataVerdict(card, today) == Valid {
      CardPaymentRefusals(card, amount, currency, description, today, tokenReply, chargeReply);
    }
  }

  /** The card is paid exactly when a charge was requested and approved,
      and then under the charge's id. */
  lemma CardPaymentPaidWhenCharged(card: Fields, amount: int, currency: string, description: string,
                                   today: YearMonth, tokenReply: GatewayReply, chargeReply: GatewayReply)
    ensures var a := CardPayment(card, amount, currency, description, today, tokenReply, chargeReply);
            && (a.outcome.Paid? <==> |a.calls| == 2 && chargeReply.Approved?)
            && (a.outcome.Paid? ==> a.outcome.transactionId == chargeReply.id)
  {
    if CardDataVerdict(card, today) == Valid {
      CardPaymentRefusals(card, amount, currency, description, today, tokenReply, chargeReply);
    }
  }

  /** A number that passes the card check has at least 13 characters, so
      its last four are exactly four characters that end it. */
  lemma LastFourOfValidNumber(number: string)
    requires CardNumberValid(number)
    ensures |LastFour(number)| == 4 && number == number[..|number| - 4] + LastFour(number)
  {
    assert |DigitsOnly(number)| <= |number|;
  }

  /** The service object. Its only state in the model is the log of the
      requests it has sent to the gateway. */
  class StripeService {
    var calls: seq<GatewayCall>

    constructor()
      ensures calls == []
    {
      calls := [];
    }

    method ProcessCardPayment(card: Fields, amount: int, currency: string, description: string,
                              today: YearMonth, tokenReply: GatewayReply, chargeReply: GatewayReply)
      returns (outcome: ChargeOutcome)
      modifies this`calls
      ensures var a := CardPayment(card, amount, currency, description, today, tokenReply, chargeReply);
              outcome == a.outcome && calls == old(calls) + a.calls
    {
      var a := CardPayment(card, amount, currency, description, today, tokenReply, chargeReply);
      calls := calls + a.calls;
      outcome := a.outcome;
    }

    /** `refundCharge`: its reply is never consulted by a caller, so only
        the request is recorded. */
    method RefundCharge(chargeId: string)
      modifies this`calls
      ensures calls == old(calls) + [Refund(chargeId)]
    {
      calls := calls + [Refund(chargeId)];
    }
  }

  /** The number of refund requests in a call log. */
  function RefundCount(calls: seq<GatewayCall>): (n: nat)
    ensures n <= |calls|
    ensures n == 0 <==> forall k :: 0 <= k < |calls| ==> !calls[k].Refund?
  {
    if calls == [] then 0
    else RefundCount(calls[..|calls| - 1]) + (if calls[|calls| - 1].Refund? then 1 else 0)
  }

  /** Refunds in a log are counted request by request: a log's count is
      the sum of its parts' counts. */
  lemma {:induction false} RefundCountConcat(first: seq<GatewayCall>, second: seq<GatewayCall>)
    ensures RefundCount(first + second) == RefundCount(first) + RefundCount(second)
    decreases |second|
  {
    if second != [] {
      var last := |second| - 1;
      assert (first + second)[..|first + second| - 1] == first + second[..last];
      RefundCountConcat(first, second[..last]);
    } else {
      assert first + second == first;
    }
  }

  /** `n` refund requests for one charge, in a row. */
  function Refunds(chargeId: string, n: nat): (r: seq<GatewayCall>)
    ensures |r| == n && RefundCount(r) == n
    ensures forall k :: 0 <= k < n ==> r[k] == Refund(chargeId)
  {
    if n == 0 then []
    else
      var r := Refunds(chargeId, n - 1) + [Refund(chargeId)];
      assert r[..n - 1] == Refunds(chargeId, n - 1);
      r
  }
}
