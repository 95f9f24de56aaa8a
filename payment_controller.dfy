/** The card purchase flow (src/Controller/PaymentController.php,
    `processPayment` and `validatePaymentInput`): check the request, record
    a PENDING payment, charge the card through StripeService, then either
    explain the refusal or finalise the purchase: against a pool ticket,
    re-read its quantity and take the purchased tickets from it, or refund
    when too few are left; without one, issue a new ticket. A failure of the
    finalisation rolls it back, refunds the charge and fails the payment. */
module Payments {
  import opened Common
  import opened PhpValues
  import opened Cards
  import opened Stripe
  import opened Entities

  // ---------------------------------------------------------------------
  // validatePaymentInput

  const PaymentFields: seq<string> :=
    ["card_number", "expiry_month", "expiry_year", "cvv", "first_name", "last_name", "amount"]

  /** The fields required, in the order they are checked; the event name
      only when a payment is to be made, not for a validation-only call. */
  function RequiredPaymentFields(validateOnly: bool): seq<string>
  {
    if validateOnly then PaymentFields else PaymentFields + ["event_name"]
  }

  /** The presence test: set, and not an empty string ("" or "0"); a
      number or a boolean is always present. */
  predicate Provided(data: Fields, field: string)
  {
    field in data && data[field] != Text("") && data[field] != Text("0")
  }

  function ProvidedIn(data: Fields): string -> bool
  {
    f => Provided(data, f)
  }

  predicate AmountValid(data: Fields)
  {
    "amount" in data && IsNumeric(data["amount"]) && NumericValue(data["amount"]) > 0
  }

  /** What `validatePaymentInput` decides: the first missing field in order,
      then the amount, which must be a number above zero. */
  function PaymentInputVerdict(data: Fields, validateOnly: bool): (r: Check)
    ensures var missing := FirstFailing(RequiredPaymentFields(validateOnly), ProvidedIn(data));
            missing.Some? ==> r == Invalid("Missing required field: " + missing.value)
    ensures r == Valid
            <==> && (forall k :: 0 <= k < |RequiredPaymentFields(validateOnly)| ==>
                       Provided(data, RequiredPaymentFields(validateOnly)[k]))
                 && AmountValid(data)
    ensures r.Invalid? && FirstFailing(RequiredPaymentFields(validateOnly), ProvidedIn(data)).None?
            ==> r == Invalid("Invalid amount")
  {
    var missing := FirstFailing(RequiredPaymentFields(validateOnly), ProvidedIn(data));
    if missing.Some? then Invalid("Missing required field: " + missing.value)
    else if !AmountValid(data) then Invalid("Invalid amount")
    else Valid
  }

  /** `validatePaymentInput`: the early-return loop over the required fields. */
  method ValidatePaymentInput(data: Fields, validateOnly: bool) returns (r: Check)
    ensures r == PaymentInputVerdict(data, validateOnly)
  {
    var required := RequiredPaymentFields(validateOnly);
    var i := 0;
    while i < |required|
      invariant 0 <= i <= |required|
      invariant forall k :: 0 <= k < i ==> ProvidedIn(data)(required[k])
    {
      var field := required[i];
      if !(field in data && data[field] != Text("") && data[field] != Text("0")) {
        FirstFailingAt(required, ProvidedIn(data), i);
        return Invalid("Missing required field: " + field);
      }
      i := i + 1;
    }
    assert forall k :: 0 <= k < |required| ==> Provided(data, required[k]);
    if !("amount" in data && IsNumeric(data["amount"]) && NumericValue(data["amount"]) > 0) {
      return Invalid("Invalid amount");
    }
    return Valid;
  }

  /** A request that passes the full check passes the validation-only
      check, and a request passing that one passes the full check exactly
      when it also carries an event name. */
  lemma {:induction false} FullCheckAddsOnlyTheEventName(data: Fields)
    ensures PaymentInputVerdict(data, false) == Valid
            <==> PaymentInputVerdict(data, true) == Valid && Provided(data, "event_name")
  {
    var full := RequiredPaymentFields(false);
    assert full == PaymentFields + ["event_name"];
    assert forall k :: 0 <= k < |PaymentFields| ==> full[k] == PaymentFields[k];
    assert full[|PaymentFields|] == "event_name";
    if PaymentInputVerdict(data, true) == Valid && Provided(data, "event_name") {
      assert forall k :: 0 <= k < |full| ==> Provided(data, full[k]) by {
        forall k | 0 <= k < |full| ensures Provided(data, full[k]) {
          if k < |PaymentFields| {
            assert Provided(data, PaymentFields[k]);
          }
        }
      }
    }
  }

  // ---------------------------------------------------------------------
  // The controller's own error map

  /** `$stripeErrorMap`, in its order; one key per entry. */
  const ControllerErrorRules: seq<Rule> := [
    Rule(["Your card has been declined"], "Your card was declined. Please check your card details or use a different card."),
    Rule(["Invalid card number"], "The card number you entered is invalid."),
    Rule(["Your card has expired"], "Your card has expired. Please use a valid card."),
    Rule(["Invalid CVC"], "The security code (CVC) is invalid."),
    Rule(["incorrect_cvc"], "The security code (CVC) does not match."),
    Rule(["expired_card"], "Your card has expired."),
    Rule(["card_declined"], "Your card was declined."),
    Rule(["processing_error"], "There was an error processing your payment. Please try again.")
  ]

  /** The `foreach` over `$stripeErrorMap`: the first entry whose key
      occurs in the error, ignoring case, gives the message. */
  method FirstMatchingMessage(rules: seq<Rule>, error: string) returns (message: string)
    requires forall i :: 0 <= i < |rules| ==> |rules[i].keywords| == 1
    ensures message == MapError(rules, error)
  {
    var i := 0;
    while i < |rules|
      invariant 0 <= i <= |rules|
      invariant forall j :: 0 <= j < i ==> !RuleMatches(rules[j], error)
    {
      if ContainsIgnoringCase(error, rules[i].keywords[0]) {
        assert RuleMatches(rules[i], error);
        MapErrorFirstMatch(rules, error, i);
        return rules[i].message;
      }
      i := i + 1;
    }
    MapErrorNoMatch(rules, error);
    return error;
  }

  method ExplainCardError(error: string) returns (message: string)
    ensures message == MapError(ControllerErrorRules, error)
  {
    assert forall i :: 0 <= i < |ControllerErrorRules| ==> |ControllerErrorRules[i].keywords| == 1;
    message := FirstMatchingMessage(ControllerErrorRules, error);
  }


  // ---------------------------------------------------------------------
  // processPayment

  const QuantityMessage := "Quantity must be at least 1"
  const InsufficientInventoryMessage := "Insufficient inventory at finalization"
  const ThirtyDays := 30 * 24 * 60 * 60

  /** The response, by HTTP status and the fields a client acts on. */
  datatype PaymentResponse =
    | TicketNotFound                                      // 404
    | InvalidRequest(error: string)                       // 400, no payment recorded
    | NotAuthenticated                                    // 401
    | CardRefused(error: string, paymentId: string)       // 400, payment FAILED
    | InsufficientInventory(available: int)               // 409, charge refunded
    | FinalizationFailed(error: string)                   // 500, charge refunded
    | PaymentCompleted(paymentId: string, transactionId: string, ticketKey: string) // 201

  /** `(int)($data['quantity'] ?? 1)`. */
  function RequestedQuantity(data: Fields): int
  {
    if "quantity" in data then IntCast(data["quantity"]) else 1
  }

  /** The pool ticket's id when `ticket_id` is given (not PHP-empty). */
  function PoolId(data: Fields): Option<int>
  {
    if Filled(data, "ticket_id") then Some(IntCast(data["ticket_id"])) else None
  }

  /** The request body as validated: against a pool ticket, its price
      replaces the amount sent, and a ticket without a price removes it. */
  function PricedInput(data: Fields, pool: Ticket?): Fields
    reads pool
  {
    if pool == null then data
    else if pool.price.Some? then data["amount" := Number(pool.price.value)]
    else data - {"amount"}
  }

  /** The checks made before any payment is recorded, in their order. */
  datatype Admission =
    | Rejected(response: PaymentResponse)
    | Admitted(pool: Ticket?, input: Fields, requested: int, amount: int, user: UserId)

  function Admit(db: Database, data: Fields, user: Option<UserId>): (a: Admission)
    reads db, db.tickets
    ensures PoolId(data).Some? && db.Find(PoolId(data).value) == null ==> a == Rejected(TicketNotFound)
    ensures a.Rejected? ==> a.response.TicketNotFound? || a.response.InvalidRequest? || a.response.NotAuthenticated?
    ensures a.Admitted? <==>
              && (PoolId(data).Some? ==> db.Find(PoolId(data).value) != null)
              && RequestedQuantity(data) >= 1
              && PaymentInputVerdict(PricedInput(data, if PoolId(data).Some? then db.Find(PoolId(data).value) else null), false) == Valid
              && user.Some?
    ensures a.Admitted? ==>
              && a.requested == RequestedQuantity(data) >= 1
              && a.pool == (if PoolId(data).Some? then db.Find(PoolId(data).value) else null)
              && a.input == PricedInput(data, a.pool)
              && PaymentInputVerdict(a.input, false) == Valid
              && a.amount == NumericValue(a.input["amount"]) > 0
              && (a.pool != null ==> a.pool in db.tickets && a.pool.price == Some(a.amount))
              && Some(a.user) == user
  {
    var pool := if PoolId(data).Some? then db.Find(PoolId(data).value) else null;
    if PoolId(data).Some? && pool == null then Rejected(TicketNotFound)
    else if RequestedQuantity(data) < 1 then Rejected(InvalidRequest(QuantityMessage))
    else
      var input := PricedInput(data, pool);
      var check := PaymentInputVerdict(input, false);
      if check.Invalid? then Rejected(InvalidRequest(check.error))
      else if user.None? then Rejected(NotAuthenticated)
      else Admitted(pool, input, RequestedQuantity(data), NumericValue(input["amount"]), user.value)
  }

  /** The card as `processCardPayment` receives it. */
  function CardOf(input: Fields): Fields
    requires PaymentInputVerdict(input, false) == Valid
  {
    var required := RequiredPaymentFields(false);
    assert required[0] == "card_number" && required[1] == "expiry_month" && required[2] == "expiry_year";
    assert required[3] == "cvv" && required[4] == "first_name" && required[5] == "last_name";
    assert forall k :: 0 <= k < 6 ==> Provided(input, required[k]);
    map["number" := input["card_number"], "exp_month" := input["expiry_month"],
        "exp_year" := input["expiry_year"], "cvc" := input["cvv"],
        "name" := Text(AsText(input["first_name"]) + " " + AsText(input["last_name"]))]
  }

  /** The card number as entered, as `processCardPayment` reads it. */
  function CardNumberOf(input: Fields): string
    requires PaymentInputVerdict(input, false) == Valid
  {
    AsText(CardOf(input)["number"])
  }

  /** `$data[$field] ?? $default`, as a string. */
  function TextOr(input: Fields, field: string, default: string): string
  {
    if field in input then AsText(input[field]) else default
  }

  /** An exception raised inside the finalisation's transaction: its
      message, and whether the locking read of the pool row raised it,
      before the quantity is known, or a later flush or the commit. */
  datatype Fault = Fault(message: string, atRead: bool)

  predicate FaultAtRead(fault: Option<Fault>)
  {
    fault.Some? && fault.value.atRead
  }

  /** Whether the finalisation finds the pool short: too few left, and
      the read that tells it so succeeded. */
  predicate FoundShort(available: int, requested: int, fault: Option<Fault>)
  {
    available < requested && !FaultAtRead(fault)
  }

  /** The catch block of the finalisation: the transaction is rolled back
      (nothing it wrote is kept), the charge refunded, the payment failed. */
  method Compensate(stripe: StripeService, payment: Payment, chargeId: string, fault: string)
    returns (response: PaymentResponse)
    modifies stripe`calls, payment`status, payment`errorMessage
    ensures stripe.calls == old(stripe.calls) + [Refund(chargeId)]
    ensures payment.status == Failed && payment.errorMessage == Some("Finalization failed: " + fault)
    ensures response == FinalizationFailed("Payment finalized but DB update failed: " + fault)
  {
    stripe.RefundCharge(chargeId);
    payment.SetStatus(Failed);
    payment.SetErrorMessage("Finalization failed: " + fault);
    response := FinalizationFailed("Payment finalized but DB update failed: " + fault);
  }

  /** Records the charge on a completed payment. */
  method Complete(payment: Payment, ticket: Ticket, charge: ChargeOutcome, now: int)
    requires charge.Paid?
    modifies payment`ticket, payment`status, payment`transactionId, payment`cardBrand,
             payment`cardLastFour, payment`completedAt
    ensures payment.ticket == ticket && payment.status == Completed
    ensures payment.transactionId == Some(charge.transactionId)
    ensures payment.cardBrand == Some(charge.cardBrand) && payment.cardLastFour == Some(charge.cardLastFour)
    ensures payment.completedAt == Some(now)
  {
    payment.SetTicket(ticket);
    payment.SetStatus(Completed);
    payment.SetTransactionId(charge.transactionId);
    payment.SetCardBrand(charge.cardBrand);
    payment.SetCardLastFour(charge.cardLastFour);
    payment.SetCompletedAt(now);
  }

  /** Too few tickets left in the pool: the charge is refunded and the
      payment failed; `fault`, an exception from the flush or the commit
      that follow, then refunds again. */
  method RefundShortage(stripe: StripeService, payment: Payment, chargeId: string, available: int,
                        fault: Option<string>)
    returns (response: PaymentResponse)
    modifies stripe`calls, payment`status, payment`errorMessage
    ensures stripe.calls == old(stripe.calls) + Refunds(chargeId, RefundsDue(response, true))
    ensures payment.status == Failed
    ensures fault.None? ==>
              && response == InsufficientInventory(available)
              && payment.errorMessage == Some(InsufficientInventoryMessage)
    ensures fault.Some? ==>
              && response == FinalizationFailed("Payment finalized but DB update failed: " + fault.value)
              && payment.errorMessage == Some("Finalization failed: " + fault.value)
  {
    ghost var start := stripe.calls;
    stripe.RefundCharge(chargeId);
    payment.SetStatus(Failed);
    payment.SetErrorMessage(InsufficientInventoryMessage);
    if fault.Some? {
      response := Compensate(stripe, payment, chargeId, fault.value);
      assert RefundsDue(response, true) == 2;
      assert Refunds(chargeId, 2) == [Refund(chargeId)] + [Refund(chargeId)];
      assert stripe.calls == start + [Refund(chargeId)] + [Refund(chargeId)];
    } else {
      response := InsufficientInventory(available);
      assert RefundsDue(response, true) == 1;
      assert Refunds(chargeId, 1) == [Refund(chargeId)];
    }
  }

  /** Finalisation against a pool ticket: re-read its quantity; if too few
      are left, refund; otherwise take the requested number from the pool.
      `fault` is an exception raised before the transaction commits, by the
      locking read or after it. */
  method FinalizeAgainstPool(db: Database, stripe: StripeService, payment: Payment, pool: Ticket,
                             requested: int, charge: ChargeOutcome, now: int, fault: Option<Fault>)
    returns (response: PaymentResponse)
    requires charge.Paid? && requested >= 1
    requires db.TicketsValid() && pool in db.tickets
    modifies pool`quantity, stripe`calls, payment`ticket, payment`status, payment`transactionId, payment`cardBrand,
             payment`cardLastFour, payment`completedAt, payment`errorMessage
    ensures db.TicketsValid() && payment.Settled()
    ensures response.PaymentCompleted? <==> requested <= old(pool.quantity) && fault.None?
    ensures response.InsufficientInventory? <==> old(pool.quantity) < requested && fault.None?
    ensures response.FinalizationFailed? <==> fault.Some?
    ensures stripe.calls == old(stripe.calls)
                            + Refunds(charge.transactionId,
                                      RefundsDue(response, FoundShort(old(pool.quantity), requested, fault)))
    // a fault at the read refunds once, however many tickets are left
    ensures FaultAtRead(fault) ==> stripe.calls == old(stripe.calls) + [Refund(charge.transactionId)]
    ensures response.PaymentCompleted? ==>
              && response == PaymentCompleted(payment.paymentId, charge.transactionId, pool.key)
              && pool.quantity == old(pool.quantity) - requested
              && payment.status == Completed && payment.ticket == pool
              && payment.transactionId == Some(charge.transactionId)
              && payment.cardBrand == Some(charge.cardBrand)
              && payment.cardLastFour == Some(charge.cardLastFour)
              && payment.completedAt == Some(now)
    ensures response.InsufficientInventory? ==>
              && response.available == old(pool.quantity) && pool.quantity == old(pool.quantity)
              && payment.status == Failed && payment.errorMessage == Some(InsufficientInventoryMessage)
    ensures fault.Some? ==>
              && response == FinalizationFailed("Payment finalized but DB update failed: " + fault.value.message)
              && pool.quantity == old(pool.quantity)
              && payment.status == Failed
              && payment.errorMessage == Some("Finalization failed: " + fault.value.message)
  {
    if FaultAtRead(fault) {
      response := Compensate(stripe, payment, charge.transactionId, fault.value.message);
      assert Refunds(charge.transactionId, 1) == [Refund(charge.transactionId)];
      return;
    }
    var available := pool.quantity;
    if available < requested {
      var later := if fault.Some? then Some(fault.value.message) else None;
      response := RefundShortage(stripe, payment, charge.transactionId, available, later);
      return;
    }
    if fault.Some? {
      response := Compensate(stripe, payment, charge.transactionId, fault.value.message);
      return;
    }
    pool.DecrementQuantity(requested);
    Complete(payment, pool, charge, now);
    response := PaymentCompleted(payment.paymentId, charge.transactionId, pool.key);
  }

  /** The ticket issued for a purchase without a pool ticket. */
  method NewTicket(payment: Payment, requested: int, input: Fields, user: UserId,
                   ticketKey: string, now: int)
    returns (t: Ticket)
    requires requested >= 1
    ensures fresh(t)
    ensures && t.key == ticketKey && t.user == Some(user) && t.payment == payment
            && t.eventName == Some(TextOr(input, "event_name", "Event Ticket"))
            && t.ticketType == TextOr(input, "ticket_type", "GENERAL")
            && t.price == payment.amount && t.status == StatusActive && t.quantity == requested
            && t.issuedAt == now && t.expiresAt == Some(now + ThirtyDays)
  {
    t := new Ticket(ticketKey, now);
    t.SetUser(user);
    t.SetPayment(payment);
    t.SetEventName(TextOr(input, "event_name", "Event Ticket"));
    t.SetTicketType(TextOr(input, "ticket_type", "GENERAL"));
    if payment.amount.Some? {
      t.SetPrice(payment.amount.value);
    }
    t.SetStatus(StatusActive);
    t.SetQuantity(requested);
    t.SetExpiresAt(Some(now + ThirtyDays));
  }

  /** Finalisation without a pool ticket: issue a new ticket for the
      purchase, valid for thirty days. No pool row is read, so where the
      fault arises makes no difference. */
  method IssueTicket(db: Database, stripe: StripeService, payment: Payment, requested: int,
                     charge: ChargeOutcome, input: Fields, user: UserId, ticketKey: string,
                     now: int, fault: Option<Fault>)
    returns (response: PaymentResponse)
    requires charge.Paid? && requested >= 1
    requires db.TicketsValid()
    modifies db`tickets, stripe`calls, payment`ticket, payment`status, payment`transactionId, payment`cardBrand,
             payment`cardLastFour, payment`completedAt, payment`errorMessage
    ensures db.TicketsValid() && payment.Settled()
    ensures response.PaymentCompleted? <==> fault.None?
    ensures response.FinalizationFailed? <==> fault.Some?
    ensures stripe.calls == old(stripe.calls) + Refunds(charge.transactionId, RefundsDue(response, false))
    ensures fault.None? ==>
              && payment.ticket != null && fresh(payment.ticket)
              && db.tickets == old(db.tickets) + [payment.ticket]
              && response == PaymentCompleted(payment.paymentId, charge.transactionId, payment.ticket.key)
              && payment.status == Completed
              && payment.transactionId == Some(charge.transactionId)
              && payment.cardBrand == Some(charge.cardBrand)
              && payment.cardLastFour == Some(charge.cardLastFour)
              && payment.completedAt == Some(now)
    ensures fault.None? ==>
              var t := payment.ticket;
              && t.key == ticketKey && t.user == Some(user) && t.payment == payment
              && t.eventName == Some(TextOr(input, "event_name", "Event Ticket"))
              && t.ticketType == TextOr(input, "ticket_type", "GENERAL")
              && t.price == old(payment.amount) && t.status == StatusActive && t.quantity == requested
              && t.issuedAt == now && t.expiresAt == Some(now + ThirtyDays)
    ensures fault.Some? ==>
              && response == FinalizationFailed("Payment finalized but DB update failed: " + fault.value.message)
              && db.tickets == old(db.tickets)
              && payment.status == Failed
              && payment.errorMessage == Some("Finalization failed: " + fault.value.message)
  {
    if fault.Some? {
      response := Compensate(stripe, payment, charge.transactionId, fault.value.message);
      return;
    }
    var ticket := NewTicket(payment, requested, input, user, ticketKey, now);
    Complete(payment, ticket, charge, now);
    db.AddTicket(ticket);
    response := PaymentCompleted(payment.paymentId, charge.transactionId, ticket.key);
  }

  /** How many refunds a purchase ends with, given whether the pool was
      found short at finalisation: one when the charge is undone, two when
      the transaction fails after the shortage was already refunded. */
  function RefundsDue(response: PaymentResponse, short: bool): nat
  {
    if response.InsufficientInventory? then 1
    else if response.FinalizationFailed? then (if short then 2 else 1)
    else 0
  }

  /** The finalisation, against the pool ticket or by issuing a new one. */
  method Finalize(db: Database, stripe: StripeService, payment: Payment, pool: Ticket?,
                  requested: int, charge: ChargeOutcome, input: Fields, user: UserId,
                  ticketKey: string, now: int, fault: Option<Fault>)
    returns (response: PaymentResponse)
    requires charge.Paid? && requested >= 1
    requires db.TicketsValid() && (pool != null ==> pool in db.tickets)
    modifies db`tickets, (if pool == null then {} else {pool})`quantity, stripe`calls, payment`ticket, payment`status, payment`transactionId, payment`cardBrand,
             payment`cardLastFour, payment`completedAt, payment`errorMessage
    ensures db.TicketsValid() && payment.Settled()
    ensures payment.status == (if response.PaymentCompleted? then Completed else Failed)
    ensures response.PaymentCompleted? ==>
              && payment.ticket in db.tickets && response.transactionId == charge.transactionId
              && payment.transactionId == Some(charge.transactionId)
              && payment.cardBrand == Some(charge.cardBrand) && payment.cardLastFour == Some(charge.cardLastFour)
    ensures response.InsufficientInventory? || response.FinalizationFailed? || response.PaymentCompleted?
    ensures stripe.calls == old(stripe.calls)
                            + Refunds(charge.transactionId, RefundsDue(response, pool != null && FoundShort(old(pool.quantity), requested, fault)))
    ensures pool != null ==> db.tickets == old(db.tickets)
    ensures pool == null ==>
              db.tickets == old(db.tickets) + (if response.PaymentCompleted? then [payment.ticket] else [])
    ensures pool != null ==>
              pool.quantity == (if response.PaymentCompleted? then old(pool.quantity) - requested else old(pool.quantity))
  {
    if pool == null {
      response := IssueTicket(db, stripe, payment, requested, charge, input, user, ticketKey, now, fault);
      return;
    }
    ghost var short := FoundShort(pool.quantity, requested, fault);
    response := FinalizeAgainstPool(db, stripe, payment, pool, requested, charge, now, fault);
    assert stripe.calls == old(stripe.calls) + Refunds(charge.transactionId, RefundsDue(response, short));
  }

  /** The charge request a purchase sends: the amount in cents, the currency
      in lower case (USD by default), the event name as description. */
  function ChargeRequest(adm: Admission, tokenId: string): GatewayCall
    requires adm.Admitted?
  {
    CreateCharge(adm.amount * 100, Lower(TextOr(adm.input, "currency", "usd")), tokenId,
                 TextOr(adm.input, "event_name", "Event Ticket"))
  }

  /** The call to `processCardPayment` with the card taken from the input.
      What it returns is `CardPayment` of those arguments (the contract of
      `StripeService.ProcessCardPayment`); what the purchase relies on is
      stated here: the requests it logs, none of them a refund, and that
      the card is paid exactly when a charge was requested and approved,
      the charge this purchase asks for. */
  method Charge(stripe: StripeService, adm: Admission, today: YearMonth,
                tokenReply: GatewayReply, chargeReply: GatewayReply)
    returns (outcome: ChargeOutcome, ghost made: seq<GatewayCall>)
    requires adm.Admitted? && PaymentInputVerdict(adm.input, false) == Valid
    modifies stripe`calls
    ensures stripe.calls == old(stripe.calls) + made && RefundCount(made) == 0
    ensures |made| <= 2 && (|made| == 2 ==> tokenReply.Approved? && made[1] == ChargeRequest(adm, tokenReply.id))
    ensures outcome.Paid? <==> |made| == 2 && chargeReply.Approved?
    // paid: the charge's id, the amount charged, and the brand and last
    // four of the number entered
    ensures outcome.Paid? ==>
              && outcome.transactionId == chargeReply.id && outcome.amount == adm.amount * 100
              && outcome.cardBrand == BrandName(CardBrand(CardNumberOf(adm.input)))
              && outcome.cardLastFour == LastFour(CardNumberOf(adm.input))
  {
    var input := adm.input;
    var card := CardOf(input);
    var cents := adm.amount * 100;
    var currency := Lower(TextOr(input, "currency", "usd"));
    var description := TextOr(input, "event_name", "Event Ticket");
    outcome := stripe.ProcessCardPayment(card, cents, currency, description, today, tokenReply, chargeReply);
    made := CardPayment(card, cents, currency, description, today, tokenReply, chargeReply).calls;
    CardPaymentRequests(card, cents, currency, description, today, tokenReply, chargeReply);
    CardPaymentPaidWhenCharged(card, cents, currency, description, today, tokenReply, chargeReply);
  }

  /** A refused card: the payment fails with the gateway's error, and the
      client is told the controller's explanation of it. */
  method Refuse(payment: Payment, outcome: ChargeOutcome) returns (response: PaymentResponse)
    requires outcome.NotPaid?
    modifies payment`status, payment`errorMessage
    ensures response == CardRefused(MapError(ControllerErrorRules, outcome.error), payment.paymentId)
    ensures payment.status == Failed && payment.errorMessage == Some(outcome.error)
  {
    payment.SetStatus(Failed);
    payment.SetErrorMessage(outcome.error);
    var message := ExplainCardError(outcome.error);
    response := CardRefused(message, payment.paymentId);
  }

  /** After the charge: a refused card fails the payment and its error is
      explained; a charged one is finalised. */
  method Settle(db: Database, stripe: StripeService, payment: Payment, adm: Admission,
                outcome: ChargeOutcome, ticketKey: string, now: int, fault: Option<Fault>)
    returns (response: PaymentResponse)
    requires adm.Admitted? && adm.requested >= 1
    requires adm.pool != null ==> adm.pool in db.tickets
    requires db.TicketsValid()
    requires |db.payments| > 0 && db.payments[|db.payments| - 1] == payment
    requires forall i :: 0 <= i < |db.payments| - 1 ==> db.payments[i] != payment && db.Accounted(db.payments[i])
    modifies db`tickets, (if adm.pool == null then {} else {adm.pool})`quantity, stripe`calls, payment`ticket, payment`status, payment`transactionId, payment`cardBrand,
             payment`cardLastFour, payment`completedAt, payment`errorMessage
    ensures db.Valid()
    ensures payment.status == (if response.PaymentCompleted? then Completed else Failed)
    ensures response.CardRefused? <==> outcome.NotPaid?
    ensures response.PaymentCompleted? ==>
              && response.transactionId == outcome.transactionId
              && payment.transactionId == Some(outcome.transactionId)
              && payment.cardBrand == Some(outcome.cardBrand) && payment.cardLastFour == Some(outcome.cardLastFour)
    ensures outcome.NotPaid? ==>
              && response == CardRefused(MapError(ControllerErrorRules, outcome.error), payment.paymentId)
              && payment.status == Failed && payment.errorMessage == Some(outcome.error)
              && stripe.calls == old(stripe.calls)
    ensures outcome.Paid? ==>
              stripe.calls == old(stripe.calls)
                              + Refunds(outcome.transactionId,
                                        RefundsDue(response, adm.pool != null
                                                             && FoundShort(old(adm.pool.quantity), adm.requested, fault)))
    ensures adm.pool != null ==> db.tickets == old(db.tickets)
    ensures adm.pool == null ==>
              db.tickets == old(db.tickets) + (if response.PaymentCompleted? then [payment.ticket] else [])
    ensures forall t :: t in old(db.tickets) ==>
              t.quantity == (if response.PaymentCompleted? && t == adm.pool
                             then old(t.quantity) - adm.requested else old(t.quantity))
  {
    if outcome.NotPaid? {
      response := Refuse(payment, outcome);
    } else {
      ghost var short := adm.pool != null && FoundShort(adm.pool.quantity, adm.requested, fault);
      response := Finalize(db, stripe, payment, adm.pool, adm.requested, outcome, adm.input, adm.user,
                           ticketKey, now, fault);
      assert stripe.calls == old(stripe.calls) + Refunds(outcome.transactionId, RefundsDue(response, short));
    }
    assert db.Accounted(payment);
    assert old(db.tickets) <= db.tickets;
    assert forall i :: 0 <= i < |db.payments| - 1 ==> unchanged(db.payments[i]);
    EarlierStillAccounted(db);
  }

  /** Payments left untouched stay accounted for while the ticket table
      only grows. */
  twostate lemma EarlierStillAccounted(db: Database)
    requires |db.payments| > 0 && db.payments == old(db.payments)
    requires forall i :: 0 <= i < |db.payments| - 1 ==> old(db.Accounted(db.payments[i]))
    requires forall i :: 0 <= i < |db.payments| - 1 ==> unchanged(db.payments[i])
    requires old(db.tickets) <= db.tickets
    ensures forall i :: 0 <= i < |db.payments| - 1 ==> db.Accounted(db.payments[i])
  {
  }

  /** The PENDING payment recorded before the card is charged. */
  method RecordPending(db: Database, adm: Admission, paymentKey: string, now: int)
    returns (payment: Payment)
    requires adm.Admitted?
    requires db.Valid()
    modifies db`payments
    ensures fresh(payment) && db.payments == old(db.payments) + [payment]
    ensures payment.paymentId == paymentKey && payment.status == Pending
    ensures payment.amount == Some(adm.amount) && payment.user == Some(adm.user)
    ensures payment.currency == TextOr(adm.input, "currency", "USD")
    ensures db.TicketsValid()
    ensures forall i :: 0 <= i < |db.payments| - 1 ==> db.payments[i] != payment && db.Accounted(db.payments[i])
  {
    payment := new Payment(paymentKey, now);
    payment.SetUser(adm.user);
    payment.SetAmount(adm.amount);
    payment.SetCurrency(TextOr(adm.input, "currency", "USD"));
    db.AddPayment(payment);
    assert forall i :: 0 <= i < |db.payments| - 1 ==> db.payments[i] == old(db.payments)[i];
  }

  /** The refunds a purchase adds to the gateway log: none from the card
      payment itself, then those the finalisation owes. */
  lemma RefundsAfter(before: seq<GatewayCall>, made: seq<GatewayCall>, after: seq<GatewayCall>,
                     response: PaymentResponse, short: bool, chargeId: string)
    requires RefundCount(made) == 0
    requires response.CardRefused? ==> after == before + made
    requires !response.CardRefused? ==> after == before + made + Refunds(chargeId, RefundsDue(response, short))
    ensures |before| <= |after| && after[..|before|] == before
    ensures RefundCount(after[|before|..]) > 0 <==> response.InsufficientInventory? || response.FinalizationFailed?
  {
    if response.CardRefused? {
      assert after[..|before|] == before && after[|before|..] == made;
    } else {
      var start := before + made;
      var due := Refunds(chargeId, RefundsDue(response, short));
      assert after == start + due;
      assert after[..|before|] == start[..|before|] == before;
      assert after[|before|..] == start[|before|..] + due;
      assert start[|before|..] == made;
      RefundCountConcat(made, due);
      assert RefundCount(due) == RefundsDue(response, short);
    }
  }

  /** What happens once the request is admitted: the PENDING payment is
      recorded, the card charged, and the purchase settled. `made` is what
      the card payment sent to the gateway. */
  method Purchase(db: Database, stripe: StripeService, adm: Admission, today: YearMonth, now: int,
                  paymentKey: string, ticketKey: string, tokenReply: GatewayReply,
                  chargeReply: GatewayReply, fault: Option<Fault>)
    returns (response: PaymentResponse, payment: Payment, ghost made: seq<GatewayCall>)
    requires adm.Admitted? && PaymentInputVerdict(adm.input, false) == Valid && adm.requested >= 1
    requires adm.pool != null ==> adm.pool in db.tickets
    requires db.Valid()
    modifies db, (if adm.pool == null then {} else {adm.pool})`quantity, stripe`calls
    ensures db.Valid()
    ensures fresh(payment) && db.payments == old(db.payments) + [payment]
    ensures payment.paymentId == paymentKey && payment.amount == Some(adm.amount) && payment.user == Some(adm.user)
    ensures payment.status == (if response.PaymentCompleted? then Completed else Failed)
    ensures RefundCount(made) == 0 && |made| <= 2
    ensures |made| == 2 ==> tokenReply.Approved? && made[1] == ChargeRequest(adm, tokenReply.id)
    // refused: nothing but the card payment's own requests, the payment FAILED
    ensures response.CardRefused? <==> !(|made| == 2 && chargeReply.Approved?)
    ensures response.CardRefused? ==>
              && stripe.calls == old(stripe.calls) + made
              && payment.status == Failed && payment.errorMessage.Some?
              && response == CardRefused(MapError(ControllerErrorRules, payment.errorMessage.value), paymentKey)
    // charged: then as many refunds of that charge as the finalisation owes
    ensures !response.CardRefused? ==>
              stripe.calls == old(stripe.calls) + made
                              + Refunds(chargeReply.id,
                                        RefundsDue(response, adm.pool != null
                                                             && FoundShort(old(adm.pool.quantity), adm.requested, fault)))
    // completed: the charge's id, and the brand and last four of the number entered
    ensures response.PaymentCompleted? ==>
              && response.transactionId == chargeReply.id
              && payment.transactionId == Some(chargeReply.id)
              && payment.cardBrand == Some(BrandName(CardBrand(CardNumberOf(adm.input))))
              && payment.cardLastFour == Some(LastFour(CardNumberOf(adm.input)))
    ensures adm.pool != null ==> db.tickets == old(db.tickets)
    ensures adm.pool == null ==>
              db.tickets == old(db.tickets) + (if response.PaymentCompleted? then [payment.ticket] else [])
    ensures forall t :: t in old(db.tickets) ==>
              t.quantity == (if response.PaymentCompleted? && t == adm.pool
                             then old(t.quantity) - adm.requested else old(t.quantity))
  {
    ghost var short := adm.pool != null && FoundShort(adm.pool.quantity, adm.requested, fault);
    payment := RecordPending(db, adm, paymentKey, now);
    var outcome;
    outcome, made := Charge(stripe, adm, today, tokenReply, chargeReply);
    ghost var charged := stripe.calls;
    response := Settle(db, stripe, payment, adm, outcome, ticketKey, now, fault);
    assert !response.CardRefused? ==> stripe.calls == charged + Refunds(chargeReply.id, RefundsDue(response, short));
  }

  /** The checks `processPayment` makes before it records anything, in
      the order it makes them, each ending the request with its response. */
  method AdmitRequest(db: Database, data: Fields, user: Option<UserId>) returns (adm: Admission)
    ensures adm == Admit(db, data, user)
  {
    var requested := RequestedQuantity(data);
    var pool: Ticket? := null;
    var input := data;
    if Filled(data, "ticket_id") {
      pool := db.Find(IntCast(data["ticket_id"]));
      if pool == null {
        return Rejected(TicketNotFound);
      }
      input := PricedInput(data, pool);
    }
    if requested < 1 {
      return Rejected(InvalidRequest(QuantityMessage));
    }
    var check := ValidatePaymentInput(input, false);
    if check.Invalid? {
      return Rejected(InvalidRequest(check.error));
    }
    if user.None? {
      return Rejected(NotAuthenticated);
    }
    adm := Admitted(pool, input, requested, NumericValue(input["amount"]), user.value);
  }

  /** An admitted request from the PENDING payment on: the payment, the
      gateway log and the inventory afterwards, in terms of the admission. */
  method PurchaseAdmitted(db: Database, stripe: StripeService, adm: Admission, today: YearMonth, now: int,
                          paymentKey: string, ticketKey: string, tokenReply: GatewayReply,
                          chargeReply: GatewayReply, fault: Option<Fault>)
    returns (response: PaymentResponse)
    requires adm.Admitted? && PaymentInputVerdict(adm.input, false) == Valid && adm.requested >= 1
    requires adm.pool != null ==> adm.pool in db.tickets
    requires db.Valid()
    modifies db, (if adm.pool == null then {} else {adm.pool})`quantity, stripe`calls
    ensures db.Valid()
    ensures && |db.payments| == |old(db.payments)| + 1
            && db.payments[..|old(db.payments)|] == old(db.payments)
            && fresh(db.payments[|old(db.payments)|])
            && db.payments[|old(db.payments)|].amount == Some(adm.amount)
            && db.payments[|old(db.payments)|].status == (if response.PaymentCompleted? then Completed else Failed)
    ensures response.PaymentCompleted? ==>
              && db.payments[|old(db.payments)|].cardBrand == Some(BrandName(CardBrand(CardNumberOf(adm.input))))
              && db.payments[|old(db.payments)|].cardLastFour == Some(LastFour(CardNumberOf(adm.input)))
    ensures response.CardRefused? ==>
              && db.payments[|old(db.payments)|].errorMessage.Some?
              && response.error == MapError(ControllerErrorRules, db.payments[|old(db.payments)|].errorMessage.value)
    ensures |old(stripe.calls)| <= |stripe.calls| && stripe.calls[..|old(stripe.calls)|] == old(stripe.calls)
    ensures RefundCount(stripe.calls[|old(stripe.calls)|..]) > 0
            <==> response.InsufficientInventory? || response.FinalizationFailed?
    ensures forall t :: t in old(db.tickets) ==>
              t.quantity == (if response.PaymentCompleted? && t == adm.pool
                             then old(t.quantity) - adm.requested else old(t.quantity))
  {
    var payment;
    ghost var made;
    ghost var before := stripe.calls;
    response, payment, made := Purchase(db, stripe, adm, today, now, paymentKey, ticketKey, tokenReply, chargeReply, fault);
    RefundsAfter(before, made, stripe.calls, response,
                 adm.pool != null && FoundShort(old(adm.pool.quantity), adm.requested, fault),
                 if chargeReply.Approved? then chargeReply.id else "");
  }

  /** `processPayment`. The gateway's two replies are parameters, and so
      is `fault`, the exception (if any) raised by the finalisation before
      it commits, and where. */
  method ProcessPayment(db: Database, stripe: StripeService, data: Fields, user: Option<UserId>,
                        today: YearMonth, now: int, paymentKey: string, ticketKey: string,
                        tokenReply: GatewayReply, chargeReply: GatewayReply, fault: Option<Fault>)
    returns (response: PaymentResponse)
    requires db.Valid()
    modifies db, db.tickets`quantity, stripe`calls
    ensures db.Valid()
    // rejected before any payment is recorded: nothing changes
    ensures var adm := old(Admit(db, data, user));
            adm.Rejected? ==>
              && response == adm.response
              && db.payments == old(db.payments) && db.tickets == old(db.tickets)
              && stripe.calls == old(stripe.calls)
              && forall t :: t in db.tickets ==> t.quantity == old(t.quantity)
    // admitted: one new payment, never left PENDING (db.Valid); see Purchase
    ensures var adm := old(Admit(db, data, user));
            adm.Admitted? ==>
              && |db.payments| == |old(db.payments)| + 1
              && db.payments[..|old(db.payments)|] == old(db.payments)
              && fresh(db.payments[|old(db.payments)|])
              && db.payments[|old(db.payments)|].amount == Some(adm.amount)
              && db.payments[|old(db.payments)|].status == (if response.PaymentCompleted? then Completed else Failed)
    // completed: the brand and last four of the card number entered are recorded
    ensures var adm := old(Admit(db, data, user));
            adm.Admitted? && response.PaymentCompleted? ==>
              && db.payments[|old(db.payments)|].cardBrand == Some(BrandName(CardBrand(CardNumberOf(adm.input))))
              && db.payments[|old(db.payments)|].cardLastFour == Some(LastFour(CardNumberOf(adm.input)))
    // a refused card is explained from the error recorded on its payment
    ensures response.CardRefused? ==>
              && |db.payments| == |old(db.payments)| + 1
              && db.payments[|old(db.payments)|].errorMessage.Some?
              && response.error == MapError(ControllerErrorRules, db.payments[|old(db.payments)|].errorMessage.value)
    // the charge is refunded exactly when the purchase is undone after it
    ensures |old(stripe.calls)| <= |stripe.calls| && stripe.calls[..|old(stripe.calls)|] == old(stripe.calls)
    ensures RefundCount(stripe.calls[|old(stripe.calls)|..]) > 0
            <==> response.InsufficientInventory? || response.FinalizationFailed?
    // inventory: only a completed purchase from a pool takes from it
    ensures var adm := old(Admit(db, data, user));
            forall t :: t in old(db.tickets) ==>
              t.quantity == (if response.PaymentCompleted? && adm.Admitted? && t == adm.pool
                             then old(t.quantity) - adm.requested else old(t.quantity))
  {
    var adm := AdmitRequest(db, data, user);
    if adm.Rejected? {
      return adm.response;
    }
    response := PurchaseAdmitted(db, stripe, adm, today, now, paymentKey, ticketKey, tokenReply, chargeReply, fault);
  }
}
