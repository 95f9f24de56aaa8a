# Events: card payments, ticket inventory and login lockout, in Dafny

This project models the core of the Events ticketing application (a Symfony/PHP
service). It covers:

- **Card checks** (`StripeService`). Card numbers are validated by the Luhn mod-10
  check of ISO/IEC 7812-1 (Annex B). The service also checks the expiry against
  the current month and the CVC, detects the brand from the number's prefix, and
  checks the required fields in a fixed order. `processCardPayment` calls a card
  gateway and maps its error keywords to messages by first match.
- **Lockout governor** (`BruteForceProtectionService` over the `LoginAttempt`
  entity). It counts failed logins per user. From the tenth consecutive failure
  on, every failure locks the account for 300 · 2^(⌈n/10⌉ − 1) seconds. A
  successful login clears the count and the lock.
- **Entities** (`Ticket`, `Payment`). A ticket is a pool whose quantity is
  clamped at zero. A payment starts PENDING.
- **Card purchase** (`PaymentController::processPayment`, `validatePaymentInput`).
  The request is validated and a PENDING payment is recorded. Then the card is
  charged. After the charge:
  - a refused card fails the payment;
  - against a pool ticket, the pool is re-read, then either decremented or, if
    too few tickets are left, the charge is refunded;
  - without a pool ticket, a new ticket is issued;
  - if the finalisation fails, it is rolled back and the charge is refunded.
- **Ticket endpoints** (`TicketController`): `purchaseTicket`, `updateTicket`,
  `createTicket` and `getTicketStats`.
- **Logins** (`AuthController`): the JSON login `apiLogin`, the POST branch of the
  form `login`, and `lockoutInfo`.

The module layout follows the source:

| file | module | models |
|---|---|---|
| `common.dfy` | `Common` | `Option`, the `Valid`/`Invalid` verdict, the first failing element of a list |
| `php_values.dfy` | `PhpValues` | JSON request values and the PHP coercions the code relies on |
| `card_validator.dfy` | `Cards` | `validateCardNumber`, `validateExpiry`, `validateCVC`, `getCardBrand`, `validateCardData` |
| `stripe_service.dfy` | `Stripe` | `processCardPayment`, `refundCharge`, the gateway request log |
| `entities.dfy` | `Entities` | `Ticket`, `Payment`, and the ticket and payment tables |
| `login_attempt.dfy` | `LoginAttempts` | `LoginAttempt` |
| `brute_force.dfy` | `BruteForce` | `BruteForceProtectionService` |
| `payment_controller.dfy` | `Payments` | `PaymentController` |
| `tickets.dfy` | `Tickets` | `TicketController` |
| `auth.dfy` | `Auth` | `AuthController` |

Conventions:

- A JSON body is a map from field names to `Text`, `Number` or `Flag` values.
  A JSON `null` is treated like an absent key, as PHP's `isset` does.
- Amounts are whole numbers and instants are whole seconds. The current instant
  and the current (year, month) are parameters.
- The gateway's replies are parameters. Every request sent to the gateway is
  appended to a log that the contracts talk about.
- A database failure during finalisation is an optional `Fault`, passed as a
  parameter: its message, and whether the locking read of the pool row raised
  it (before the quantity is known) or a later flush or the commit did.
- Stateful entities are classes whose methods state their whole new state.
  Each one is tied to a pure function, and the properties are proved about
  that function.

Where the source's comments and its code disagree, the model follows the code:

- The header comment of `BruteForceProtectionService` promises "5 new attempts
  allowed" after the first unlock. The code instead re-locks on every failure
  from the tenth on (src/Service/BruteForceProtectionService.php:74-81).
- The comments give lockouts of 300 s at 10 failures, 600 s at 20 and 1200 s at
  30. The code's ⌈n/10⌉ gives 600 s from the 11th failure to the 20th, and
  1200 s from the 21st to the 30th.

Two further behaviours of the code are kept as they are:

- A purchase against a pool ticket charges the pool's unit price, whatever
  quantity is requested (src/Controller/PaymentController.php:77, 108).
- Such a purchase links the ticket only from the payment's side (line 191).
  In the mapping that side is not the one stored: `Payment::$ticket` is the
  inverse side (src/Entity/Payment.php:51-52) and `Ticket::$payment` the owning
  side (src/Entity/Ticket.php:24-26). So the flush at line 198 does not write
  the link, and the stored COMPLETED payment of a pool purchase has no ticket.
  The model's "a completed payment holds a ticket" (`Payments.Finalize`,
  `Entities.Database.Valid`) holds for the objects of the request, not for
  what a later request reads back.

## Model

| member | source | states |
|---|---|---|
| Common.FirstFailing | src/Controller/PaymentController.php:349-353 | the early-return scan of required fields: `None` iff every field passes, otherwise the first failing one, all before it passing |
| Cards.DigitsOnly | src/Service/StripeService.php:306 | stripping non-digits leaves only digits, never more characters than the input |
| Cards.SeparatorsIgnored | src/Service/StripeService.php:306 | inserting a non-digit anywhere in a card number never changes whether it is accepted; acceptance depends on its digits alone |
| Cards.DigitTerm | src/Service/StripeService.php:316-323 | one step of the loop adds the digit, or twice the digit less 9 when that exceeds 9, exactly when `isEven` is set |
| Cards.LuhnSumLoop | src/Service/StripeService.php:312-327 | the right-to-left loop that flips `isEven` after every digit computes the Luhn sum with the rightmost digit undoubled |
| Cards.ValidateCardNumber | src/Service/StripeService.php:304-330 | a number is accepted iff it has 13 to 19 digits once non-digits are dropped and their Luhn sum is a multiple of 10 |
| Cards.LuhnSumAppend | src/Service/StripeService.php:315-326 | appending a digit on the right makes it the undoubled one and flips the doubling of every digit before it |
| Cards.LuhnSumUpdate | src/Service/StripeService.php:315-326 | replacing one digit changes the Luhn sum by the difference of the old and new digit's terms at that position |
| Cards.SingleDigitErrorDetected | src/Service/StripeService.php:312-329 | every accepted number is rejected once any single digit is changed |
| Cards.CheckDigitIsTheOnlyCompletion | src/Service/StripeService.php:312-329 | for any digit payload exactly one final digit, the check digit, makes the Luhn sum a multiple of 10 |
| Cards.ValidateExpiry | src/Service/StripeService.php:335-361 | a month outside 1..12 is rejected whatever the year; otherwise the card is accepted iff its year (plus 2000 below 100) and month are not before the current month, so the current month is still valid |
| Cards.CvcCheckDiffersOnlyOnTrailingNewline | src/Service/StripeService.php:366-369 | the CVC pattern as PCRE runs it also accepts 3 or 4 digits followed by a newline; the strict check accepts exactly 3 or 4 digits |
| Cards.LeadingValues | src/Service/StripeService.php:377-379 | the integer values of the first two and first four digits, including for numbers shorter than that |
| Cards.BrandClassification | src/Service/StripeService.php:374-394 | VISA iff the first digit is 4; MASTERCARD iff the first two are 51-55; AMEX iff 34 or 37; DISCOVER iff the first four are 6011 or the first two 65-69; JCB iff the first four are 3528-3589 |
| Cards.CardDataVerdict | src/Service/StripeService.php:265-299 | the first missing or empty field in the order number, expiry month, expiry year, CVC, name is reported by label; valid iff all are filled and the number, the expiry and the CVC pass, and the number is checked before the expiry; with every field filled and the number valid, an invalid expiry is reported before the CVC |
| Cards.FirstMissingField | src/Service/StripeService.php:267-280 | the loop over the required card fields returns the first one missing or empty |
| Cards.ValidateCardData | src/Service/StripeService.php:265-299 | the early-return method returns exactly `CardDataVerdict` |
| Stripe.MapErrorNoMatch | src/Service/StripeService.php:48-61 | an error that no keyword rule matches is passed on unchanged |
| Stripe.MapErrorFirstMatch | src/Service/StripeService.php:84-101 | an error matched by several keyword rules gets the message of the first of them |
| Stripe.TokenDeclineTakesPriority | src/Service/StripeService.php:49-50 | a token error that contains "decline" in any case gets the declined message, whatever else it mentions |
| Stripe.GeneralKeywordDecides | src/Service/StripeService.php:49-56 | each of the first four token rules matches an error iff its general keyword ("decline", "cvc", "expired", "invalid") occurs in it, ignoring case; the specific keyword beside it never decides |
| Stripe.CardPayment | src/Service/StripeService.php:28-121 | invalid card data gives the validation error with status 400 and sends no request; the card is paid iff the data are valid and both the token and the charge are approved; no refund is ever requested |
| Stripe.CardPaymentSuccess | src/Service/StripeService.php:111-121 | a successful payment carries the charge id as transaction id, the upper-cased currency, the number's brand and its last four characters, after a token request and the charge request |
| Stripe.CardPaymentRefusals | src/Service/StripeService.php:43-108 | a refused token gives the token rules' message with status 400 after one request; a refused charge gives the charge rules' message with the gateway's status after two |
| Stripe.CardPaymentRequests | src/Service/StripeService.php:43-79 | at most two requests and no refund; a second request is the charge for the amount, currency and description with the token just issued |
| Stripe.CardPaymentPaidWhenCharged | src/Service/StripeService.php:81-121 | the card is paid iff a charge was requested and approved, and then the transaction id is the charge's id |
| Stripe.LastFourOfValidNumber | src/Service/StripeService.php:118 | for an accepted number the last four are four characters that end it |
| Stripe.StripeService.ProcessCardPayment | src/Service/StripeService.php:28-131 | the outcome is `CardPayment` of the arguments and the request log grows by exactly its requests |
| Stripe.StripeService.RefundCharge | src/Service/StripeService.php:227-260 | one refund request for the charge is appended to the log |
| Entities.Ticket.constructor | src/Entity/Ticket.php:30-57 | a new ticket is ACTIVE, of type GENERAL, with quantity 1, issued now, with no user, payment, event name, price or expiry |
| Entities.Ticket.SetUser | src/Entity/Ticket.php:66 | sets the owner and nothing else |
| Entities.Ticket.SetPayment | src/Entity/Ticket.php:69 | sets the payment and nothing else |
| Entities.Ticket.SetEventName | src/Entity/Ticket.php:72 | sets the event name and nothing else |
| Entities.Ticket.SetTicketType | src/Entity/Ticket.php:75 | sets the type and nothing else |
| Entities.Ticket.SetPrice | src/Entity/Ticket.php:78 | sets the price and nothing else |
| Entities.Ticket.SetExpiresAt | src/Entity/Ticket.php:83 | sets the expiry and nothing else |
| Entities.Ticket.SetStatus | src/Entity/Ticket.php:86 | sets the status and nothing else |
| Entities.Ticket.SetQuantity | src/Entity/Ticket.php:89 | stores max(0, q): never negative, and q itself when q ≥ 0; only the quantity changes |
| Entities.Ticket.DecrementQuantity | src/Entity/Ticket.php:91-95 | stores max(0, quantity − a), so the quantity stays non-negative, and takes exactly a when a is at most the quantity; only the quantity changes |
| Entities.Ticket.IncrementQuantity | src/Entity/Ticket.php:97-101 | adds exactly a, unclamped; a non-negative quantity stays so when a ≥ 0; only the quantity changes |
| Entities.Ticket.IsSoldOut | src/Entity/Ticket.php:103 | a ticket is sold out when its quantity is at most zero; for a quantity that never went negative, exactly when none is left |
| Entities.Payment.constructor | src/Entity/Payment.php:25-59 | a new payment is PENDING in USD, created now, with no amount, user, ticket, transaction id, card brand, last four, completion time or error |
| Entities.Payment.SetUser | src/Entity/Payment.php:68 | sets the payer and nothing else |
| Entities.Payment.SetAmount | src/Entity/Payment.php:71 | sets the amount and nothing else |
| Entities.Payment.SetCurrency | src/Entity/Payment.php:74 | sets the currency and nothing else |
| Entities.Payment.SetStatus | src/Entity/Payment.php:77 | sets exactly the given status and nothing else |
| Entities.Payment.SetTransactionId | src/Entity/Payment.php:80 | sets the transaction id and nothing else |
| Entities.Payment.SetCardBrand | src/Entity/Payment.php:83 | sets the card brand and nothing else |
| Entities.Payment.SetCardLastFour | src/Entity/Payment.php:86 | sets the last four digits and nothing else |
| Entities.Payment.SetCompletedAt | src/Entity/Payment.php:91 | sets the completion time and nothing else |
| Entities.Payment.SetErrorMessage | src/Entity/Payment.php:94 | sets the error message and nothing else |
| Entities.Payment.SetTicket | src/Entity/Payment.php:97 | sets the linked ticket and nothing else |
| Entities.Database.Find | src/Controller/PaymentController.php:72 | a ticket is found iff its id is that of a stored ticket, and what is found is in the table |
| Entities.Database.AddTicket | src/Controller/PaymentController.php:221 | persisting a ticket appends it to the ticket table |
| Entities.Database.AddPayment | src/Controller/PaymentController.php:104-105 | persisting a payment appends it to the payment table |
| LoginAttempts.LoginAttempt.constructor | src/Entity/LoginAttempt.php:33-39 | a new record has no failures and no lock |
| LoginAttempts.LoginAttempt.SetFailedAttempts | src/Entity/LoginAttempt.php:62-66 | sets the counter and nothing else |
| LoginAttempts.LoginAttempt.IncrementFailedAttempts | src/Entity/LoginAttempt.php:68-73 | adds exactly one to the counter and leaves the lock unchanged |
| LoginAttempts.LoginAttempt.ResetFailedAttempts | src/Entity/LoginAttempt.php:75-81 | zero failures and no lock, so the record is not locked |
| LoginAttempts.LoginAttempt.SetLockedUntil | src/Entity/LoginAttempt.php:88-93 | sets the lock instant and leaves the counter unchanged |
| LoginAttempts.LoginAttempt.LockAccount | src/Entity/LoginAttempt.php:104-111 | locks until now + d seconds, keeps the counter, and a positive d leaves the record locked (`isLocked`, strictly after now) |
| LoginAttempts.LoginAttempt.IsLocked | src/Entity/LoginAttempt.php:95-102 | a record without a lock instant is never locked; a lock in force now stays in force at every instant before its end and is over at its end |
| BruteForce.LockoutSchedule | src/Service/BruteForceProtectionService.php:74-78 | the 10th failure locks for 300 s, the 11th to 20th for 600 s, the 21st to 30th for 1200 s |
| BruteForce.LockoutDoublesEveryTenFailures | src/Service/BruteForceProtectionService.php:75-76 | ten more failures double the lock |
| BruteForce.LockoutMonotone | src/Service/BruteForceProtectionService.php:75-76 | the lock never shrinks as failures grow and is at least 300 s |
| BruteForce.LockoutClosedForm | src/Service/BruteForceProtectionService.php:75-76 | the lock for n failures is 300 · 2^⌊(n − 1)/10⌋ seconds |
| BruteForce.LockoutFitsPhpInt | src/Service/BruteForceProtectionService.php:75-78 | the lock duration fits in PHP's 64-bit integers exactly up to the 550th failure, so up to there the `(int)` cast of the float product is the duration the model computes |
| BruteForce.FailureOutcome | src/Service/BruteForceProtectionService.php:60-87 | a failure adds exactly one to the count; below ten it returns 10 − n (1 to 9) and sets no lock; from ten on it returns null and locks for exactly the schedule's duration, keeping the count |
| BruteForce.NullResultMeansLocked | src/Service/BruteForceProtectionService.php:74-86 | a failure returns null iff the account is locked afterwards |
| BruteForce.SuccessOutcome | src/Service/BruteForceProtectionService.php:92-113 | a success clears the count and the lock of an existing record, creates none, and leaves the account unlocked |
| BruteForce.LockedIffTimeRemains | src/Service/BruteForceProtectionService.php:28-54 | an account is locked iff its remaining lockout time is present and positive |
| BruteForce.LockoutInfoOf | src/Service/BruteForceProtectionService.php:118-142 | no record gives unlocked, zero failures, no lock instant and no remaining time; the remaining time is reported only while locked, and then it is positive |
| BruteForce.FailuresBelowThresholdOnlyCount | src/Service/BruteForceProtectionService.php:69-86 | failures that keep the count below ten only count and never lock |
| BruteForce.TenthFailureLocks | src/Service/BruteForceProtectionService.php:60-87 | from a clean record nine failures never lock, whenever they happen, and the tenth locks for 300 s |
| BruteForce.BruteForceProtection.RecordFailedAttempt | src/Service/BruteForceProtectionService.php:60-87 | creates a record only when the user has none, applies one failure to the user's record, returns its result, and changes no other user's record |
| BruteForce.BruteForceProtection.RecordSuccessfulLogin | src/Service/BruteForceProtectionService.php:92-100 | resets the user's record if there is one, and changes no other user's record |
| BruteForce.BruteForceProtection.ResetLoginAttempts | src/Service/BruteForceProtectionService.php:105-113 | the same reset as a successful login |
| BruteForce.BruteForceProtection.IsAccountLocked | src/Service/BruteForceProtectionService.php:28-37 | a user without a record is never locked; a user is locked iff the remaining lockout time is present and positive |
| BruteForce.BruteForceProtection.GetRemainingLockoutTime | src/Service/BruteForceProtectionService.php:42-54 | null iff the user has no record or no lock instant; otherwise never negative, and a positive remaining time is exactly the lock instant minus now |
| BruteForce.BruteForceProtection.GetLockoutInfo | src/Service/BruteForceProtectionService.php:118-142 | a user without a record gets unlocked, zero failures and nothing else; otherwise the lock flag is `isAccountLocked`, the failures are the record's, and the remaining time is present iff locked, then equal to `getRemainingLockoutTime` and positive |
| Payments.PaymentInputVerdict | src/Controller/PaymentController.php:333-360 | the first missing or empty-string field is reported in the fixed order, with the event name required only for a payment; then a non-numeric or non-positive amount gives "Invalid amount" |
| Payments.ValidatePaymentInput | src/Controller/PaymentController.php:333-360 | the early-return method returns exactly `PaymentInputVerdict` |
| Payments.FullCheckAddsOnlyTheEventName | src/Controller/PaymentController.php:345-347 | a payment passes validation iff it passes the validation-only check and carries an event name |
| Payments.FirstMatchingMessage | src/Controller/PaymentController.php:146-152 | the `foreach`/`break` loop returns the first matching rule's message, or the error unchanged |
| Payments.ExplainCardError | src/Controller/PaymentController.php:132-152 | a refused card's error is explained by the controller's keyword table, first match wins |
| Payments.Admit | src/Controller/PaymentController.php:68-95 | an unknown pool ticket gives 404; admitted iff the pool (if any) exists, the quantity (default 1) is at least 1, the input priced from the pool passes validation and a user is logged in; the amount is then the pool's price |
| Payments.AdmitRequest | src/Controller/PaymentController.php:68-95 | the checks in their order return exactly `Admit` |
| Payments.RecordPending | src/Controller/PaymentController.php:98-105 | a PENDING payment for the amount, user and currency (USD by default) is appended before the gateway is called |
| Payments.Charge | src/Controller/PaymentController.php:107-124 | the card charge sends at most the token and the charge for the amount in cents, lower-cased currency and the event name, never a refund; paid iff that charge was approved, and then with the charge's id, the amount in cents, and the brand and last four of the card number entered |
| Payments.Refuse | src/Controller/PaymentController.php:126-159 | a refused card fails the payment with the gateway's error and answers the controller's explanation of it |
| Payments.Complete | src/Controller/PaymentController.php:191-196 | a completed payment links the ticket and records the transaction id, brand, last four and completion time |
| Payments.Compensate | src/Controller/PaymentController.php:225-233 | a failed finalisation appends one refund, fails the payment with "Finalization failed: …" and answers 500 |
| Payments.RefundShortage | src/Controller/PaymentController.php:174-186 | too few tickets left: one refund, the payment FAILED with "Insufficient inventory at finalization" and 409 with the quantity available; a fault from the flush or the commit that follow adds the catch block's second refund |
| Payments.FinalizeAgainstPool | src/Controller/PaymentController.php:168-200 | completed iff the re-read quantity covers the request and nothing fails, and then exactly the requested number is taken; otherwise the quantity is unchanged and the charge refunded: once for a fault at the locking read, whatever the stock, and twice only when the pool was read short and a later fault follows |
| Payments.NewTicket | src/Controller/PaymentController.php:204-212 | the ad-hoc ticket is ACTIVE, owned by the payer, linked to the payment, priced at the amount, with the requested quantity and an expiry thirty days on |
| Payments.IssueTicket | src/Controller/PaymentController.php:202-224 | without a pool the new ticket is stored and linked both ways unless the finalisation fails, which refunds once and stores nothing |
| Payments.Finalize | src/Controller/PaymentController.php:162-234 | after a charge the payment ends COMPLETED if the response says so and FAILED otherwise, never PENDING; a completed payment holds a ticket and records the charge's transaction id, brand and last four |
| Payments.Settle | src/Controller/PaymentController.php:126-234 | after the charge: a refused card fails the payment, a charged one is finalised; the payment is COMPLETED iff the response is and FAILED otherwise, a completed one recording the charge's transaction id, brand and last four; every stored payment stays settled |
| Payments.RefundsAfter | src/Controller/PaymentController.php:126-234 | the requests a purchase adds include a refund iff it ends in insufficient inventory or a failed finalisation |
| Payments.Purchase | src/Controller/PaymentController.php:98-234 | one new payment, COMPLETED iff the response is and FAILED otherwise; a completed one records the charge's id and the brand and last four of the card number entered; a refused card sends no refund; a charged card is refunded as many times as its finalisation owes (twice only when the pool was read short and the transaction then failed); only a completed pool purchase changes an inventory, by the requested number, and of a ticket nothing but its quantity may change |
| Payments.PurchaseAdmitted | src/Controller/PaymentController.php:98-257 | the new payment, the request log and the inventories after an admitted request, in terms of the admission; the payment is COMPLETED iff the response is and FAILED otherwise, and a completed one records the brand and last four of the number entered; of the pool ticket only its quantity may change |
| Payments.ProcessPayment | src/Controller/PaymentController.php:59-262 | a rejected request changes nothing; an admitted one adds exactly one payment, COMPLETED iff the response is and FAILED otherwise, a completed one recording the brand and last four of the card number entered; a refund is requested iff the purchase is undone after the charge; only a completed pool purchase takes tickets, exactly the requested number; of the existing tickets nothing but a quantity may change |
| Tickets.PurchaseOutcome | src/Controller/TicketController.php:181-224 | a non-numeric or < 1 quantity (default 1) gives 400, sold out gives 409 before the comparison, too few gives 400 with the quantity available; otherwise the remaining quantity is the old one less the request, and nothing changes on the error paths |
| Tickets.PurchaseTicket | src/Controller/TicketController.php:181-224 | the endpoint's response and the ticket's new quantity are `PurchaseOutcome` of the old quantity |
| Tickets.NoOversell | src/Controller/TicketController.php:190-211 | over any sequence of purchases handled one after another the quantity never goes negative and what is sold plus what is left is the starting quantity |
| Tickets.SingleTicketRequests | src/Controller/TicketController.php:188-211 | single-ticket requests sell min(q, requests) tickets and leave the rest |
| Tickets.LooseStatusCheckAdmitsTrue | src/Controller/TicketController.php:141-146 | the loose `in_array` lets JSON `true` through, stored as status "1"; on every other value it agrees with the strict check |
| Tickets.UpdateTicket | src/Controller/TicketController.php:121-175 | the ticket's fields and the response are `UpdateOutcome` of the old fields: checks in order, each accepted field written at once, so a later rejection leaves the earlier fields changed in memory (unflushed) |
| Tickets.UpdateOutcome | src/Controller/TicketController.php:134-162 | accepted iff the quantity (if sent) is a non-negative number, the status (if sent) one of the four and the price (if sent) a non-negative number; a refused status has written at most the quantity; a refused price leaves the price as it was |
| Tickets.UpdateKeepsTicketValid | src/Controller/TicketController.php:134-162 | an update keeps the quantity non-negative and the status one of ACTIVE, USED, EXPIRED, CANCELLED; a bad quantity changes nothing |
| Tickets.UpdateAppliesEveryField | src/Controller/TicketController.php:134-162 | an accepted update sets every field sent and keeps every field not sent |
| Tickets.UpdateIdempotent | src/Controller/TicketController.php:134-162 | sending an accepted update twice has the effect of sending it once |
| Tickets.CreateCheck | src/Controller/TicketController.php:69-84 | the first missing required field in the order event_name, ticket_type, price, quantity is reported; valid iff all are set and price and quantity are non-negative numbers; with every field present the price is checked before the quantity |
| Tickets.FirstMissingCreateField | src/Controller/TicketController.php:70-75 | the loop over the required fields returns the first one not set |
| Tickets.CheckCreateRequest | src/Controller/TicketController.php:69-84 | the checks in their order return exactly `CreateCheck` |
| Tickets.NewPoolTicket | src/Controller/TicketController.php:86-92 | the new ticket carries the request's event name, type, price and quantity, is ACTIVE and unpaid |
| Tickets.CreateTicket | src/Controller/TicketController.php:62-115 | created iff the checks pass and any expiry given parses; a rejection stores nothing; a creation appends exactly one new ticket carrying the request's event name, type, price and quantity (as `(int)`, never negative), ACTIVE, unpaid, owned by the caller |
| Tickets.AccumulateCounts | src/Controller/TicketController.php:273-288 | the loop's counters are the status counts, the sold-out count and the two inventory sums of the tickets |
| Tickets.StatusCountsBounded | src/Controller/TicketController.php:277-283 | the four status counts add up to at most the number of tickets |
| Tickets.AvailableAtLeastTotal | src/Controller/TicketController.php:274-275 | the available inventory is never below the total inventory |
| Tickets.InventoriesAgree | src/Controller/TicketController.php:274-275 | when no quantity is negative, the available and total inventories are equal |
| Tickets.NothingAvailableIffAllSoldOut | src/Controller/TicketController.php:275-287 | nothing is available iff every ticket is sold out |
| Tickets.StatsProperties | src/Controller/TicketController.php:258-294 | total is the number of tickets, sold-out and status counts are within it, available is at least total, nothing available iff all sold out |
| Tickets.GetTicketStats | src/Controller/TicketController.php:258-294 | the loop over all tickets computes `StatsOf` their rows |
| Auth.Login | src/Controller/AuthController.php:133-165 | a locked known user is answered with the remaining time, the password unchecked and nothing recorded; an unknown email records nothing; a wrong password records exactly one failure and answers locked iff that returned null; a valid one resets the record |
| Auth.LockedIgnoresPassword | src/Controller/AuthController.php:136-142 | while an account is locked the answer does not depend on the password |
| Auth.AsWrittenRetryTooEarly | src/Controller/AuthController.php:148-152 | the failure that locks answers `retry_after` 60, but the lock lasts at least 300 s, so the account is still locked at now + 60 |
| Auth.RetryAfterIsExact | src/Controller/AuthController.php:136-152 | with `retry_after` taken from the lock, the account is locked one second before now + `retry_after` and unlocked at it |
| Auth.ApiLogin | src/Controller/AuthController.php:123-174 | the JSON login answers `Login`'s decision and leaves the user's record as it says, with no other user's record changed |
| Auth.FormResponseOf | src/Controller/AuthController.php:46-90 | the form login redirects back with the email as username, except after a lock check |
| Auth.FormAndApiAgree | src/Controller/AuthController.php:46-174 | the form goes to the dashboard iff the JSON login issues a token, and shows a lock message iff the JSON login answers 429 |
| Auth.FormLogin | src/Controller/AuthController.php:39-91 | the POST branch makes `Login`'s decision in the same order (lock check, password check with a recorded failure, reset on success) |
| Auth.LockoutInfoResponse | src/Controller/AuthController.php:177-198 | an empty username gives 400; an unknown user is unlocked with no remaining time; a known user's lock, remaining time (present iff locked) and failure count are the governor's |
| Auth.LockoutInfo | src/Controller/AuthController.php:177-198 | the endpoint returns exactly `LockoutInfoResponse` of the service's current record |

## Left out

- The HTTP requests to the card gateway (`createCardToken`, `createPaymentIntent`,
  and the request inside `refundCharge`). Their replies are parameters. The reply
  to a refund is not modelled, since the controller ignores it.
- An exception thrown inside `processCardPayment` (its "server_error" reply) and
  the outer catch of `processPayment` ("Payment processing error", 500). Both
  are foreign failures outside the modelled steps.
- Floating point: `(float)$amount * 100` and `$amount / 100`. Amounts are
  integers, the charge is `amount · 100` cents, and the success reply's
  `amount` is the charge in cents rather than the source's `$amount / 100`.
- Prices are decimal strings in the source and integers here. JSON numbers
  with a fraction are not modelled.
- Payments.PaymentInputVerdict: the model's `is_numeric` accepts only an
  optionally signed integer with surrounding white space, so it answers
  "Invalid amount" to an amount of "49.99" (or "1e3"), which the source accepts.
  `Payments.ValidatePaymentInput`, `Payments.Admit`, `Payments.AdmitRequest`
  and `Payments.ProcessPayment` inherit this.
- Payments.Admit, Payments.AdmitRequest: the amount "49.99" is refused with
  "Invalid amount" (see `Payments.PaymentInputVerdict`). The quantity goes
  through the model's `(int)`, which reads only the leading integer, so a
  quantity of "1e3" requests 1 ticket, where PHP's `(int)` gives 1000
  (src/Controller/PaymentController.php:70).
- Tickets.CreateCheck: `is_numeric` takes integer notation only, so a price of
  "49.99" is refused with "Price must be a positive number", and a quantity of
  "2.5" or "1e1" with "Quantity must be a positive number". The source accepts
  both (src/Controller/TicketController.php:78-84), stores the price as given
  and the quantity as `(int)` of it, 2 or 10.
- Tickets.CheckCreateRequest: returns `Tickets.CreateCheck`, so it refuses the
  same price "49.99" and quantity "2.5".
- Tickets.CreateTicket: answers 400 to the price "49.99" or the quantity "2.5",
  where the source creates the ticket with 201.
- Tickets.UpdateOutcome: a quantity of "2.5" is refused with "Quantity must be a
  non-negative number", and a price of "49.99" with "Price must be a positive
  number". The source stores 2 and "49.99"
  (src/Controller/TicketController.php:135-139, 157-161).
- Tickets.UpdateTicket: the same refusals as `Tickets.UpdateOutcome`.
- Tickets.PurchaseOutcome: a quantity of "2.5" or "1e1" is refused with
  "Quantity must be at least 1". The source accepts it, compares the
  fractional value with what is left, and takes `(int)` of it
  (src/Controller/TicketController.php:190-211).
- Tickets.PurchaseTicket: the same refusal as `Tickets.PurchaseOutcome`.
- The database transaction, `SELECT … FOR UPDATE`, `flush` and `persist` are one
  sequential step. The re-read of the pool quantity is the ticket's current
  quantity. Concurrency is not modelled. `purchaseTicket` reads and decrements
  the quantity without a row lock, so concurrent purchases can oversell in the
  source; `Tickets.NoOversell` is about requests handled one at a time.
- A database fault is modelled only during finalisation, as a parameter. The
  500 replies of the `TicketController` endpoints' catch blocks are not modelled.
- The clock, `uniqid` keys and the QR code: instants and keys are parameters.
- The success bodies' formatting (`formatTicketResponse`, the JSON shapes), the
  ownership and `ROLE_ADMIN` checks, the GET branch of `login`, the JWT and
  session handling and the Symfony security token.
- Tickets.CreateTicket: the result of parsing `expires_at` is a parameter.
  PHP's date parser is not modelled.
- Tickets.CreateTicket: the source builds the ticket before it parses the date.
  The model parses first. The unsaved ticket of the failing path is never
  observable.
- Payments.FinalizeAgainstPool: the source links the pool ticket to the payment
  on the payment's side only. The model does the same, and leaves the ticket's
  own `payment` unchanged. Because the payment's side is the inverse one, the
  stored payment of a pool purchase has no ticket; the model does not
  distinguish the stored link from the in-memory one (see the note above the
  model table).
- Cards.CardDataVerdict: uses the intended CVC check (see Findings), so a CVC
  of "123\n" is refused with "Invalid CVC" here, where the source accepts it
  (src/Service/StripeService.php:368). The same difference reaches
  `Cards.ValidateCardData`, `Stripe.CardPayment`,
  `Stripe.StripeService.ProcessCardPayment`, `Payments.Charge`,
  `Payments.Purchase`, `Payments.PurchaseAdmitted` and `Payments.ProcessPayment`.
- Cards.ValidateCardData: returns `Cards.CardDataVerdict`, so it refuses the
  CVC "123\n" that the source accepts.
- Tickets.UpdateTicket: uses the intended status check (see Findings), so
  `{"status": true}` is answered 400 "Invalid status" here, where the source
  accepts it and stores the status "1" (src/Controller/TicketController.php:143).
- Tickets.UpdateOutcome: the same difference as `Tickets.UpdateTicket`.
- Auth.ApiLogin: the failure that locks the account answers `retry_after` equal
  to the lock's length (300 on the 10th failure, 600 on the 11th to 20th), where
  the source answers 60 (src/Controller/AuthController.php:149-152); see
  Findings. `Auth.ApiResponseAsWritten` is the source's answer.
- Payments.ProcessPayment, Payments.Purchase, Payments.PurchaseAdmitted:
  `$conn->beginTransaction()` (src/Controller/PaymentController.php:164-165)
  sits after the charge but outside the inner `try`. If it throws, the card has
  been charged, no refund is sent, the payment stays PENDING, and the outer
  catch (lines 259-261) answers 500 "Payment processing error". The model
  assumes it succeeds, so "a refund is requested iff the purchase is undone
  after the charge" and "the payment ends COMPLETED or FAILED" hold only under
  that assumption.
- Payments.Charge: states the paid outcome field by field (transaction id,
  amount in cents, brand, last four), not the refusal's message and status
  code or the currency. Those are given by the contracts of
  `Stripe.StripeService.ProcessCardPayment` (the outcome is that of
  `Stripe.CardPayment`) and `Stripe.CardPaymentRefusals`. Restating the whole
  `Stripe.CardPayment` equation in `Payments.Charge` makes its callers too
  costly for the verifier.
- Stripe.CardPaymentSuccess, Stripe.LastFourOfValidNumber: `Stripe.LastFour`
  counts characters, where PHP's `substr($n, -4)` counts bytes. The two agree
  when the number's last four characters are ASCII. For "4242424242424242é"
  (accepted, since the check reads only its digits) PHP records "42" followed
  by the two bytes of "é", and the model records "242é". `Payments.Complete`,
  `Payments.Charge`, `Payments.Purchase`, `Payments.PurchaseAdmitted` and
  `Payments.ProcessPayment` record the model's value.
- Payments.Compensate, Payments.ProcessPayment: the `flush` inside the
  finalisation's catch block (src/Controller/PaymentController.php:231) is
  assumed to succeed. If it throws, the outer catch (lines 259-261) answers 500
  with the payment left PENDING, so "an admitted payment never stays PENDING"
  holds only under this assumption.
- Auth.ApiLogin, Auth.FormLogin, Auth.Login: the password check is the
  parameter `passwordValid`, so it always answers. In the source a request
  from a known, unlocked user with no password (the JSON `password` missing or
  null, or no `_password` field) passes null to `isPasswordValid`
  (src/Controller/AuthController.php:144, 55). The framework declares that
  parameter as a string, so PHP raises a `TypeError`, which no catch in these
  actions handles: the answer is a 500 and no failure is recorded. The model
  records one failure and answers 401, or 429 when that failure locks (the
  form redirects back instead). An unknown or locked user never reaches that
  call, so for them the model agrees with the source.
- Auth.FormLogin: the flash messages are modelled by kind and number, not by
  their text.
- Cards.ValidateExpiry: `(int)` of a month or year string reads only its
  leading integer. PHP also reads a fraction or an exponent ("1e1" is 10); that
  is not modelled.
- BruteForce.LockoutDuration, BruteForce.LockoutMonotone,
  BruteForce.LockoutClosedForm, BruteForce.LockoutDoublesEveryTenFailures: the
  model's duration is an unbounded integer. The source computes a float and
  casts it with `(int)`. From the 551st failure the float exceeds PHP's
  largest integer, and the cast no longer gives 300·2^k: it can give 0 (no
  lock) or a negative number, whose `PT…S` interval makes `lockAccount` throw
  (src/Entity/LoginAttempt.php:105-107). `BruteForce.LockoutFitsPhpInt` states
  the bound. Each failure past the tenth needs the previous lock to expire
  first, so that count is out of practical reach.

## Findings

| source | as written | input that shows it | evidently intended | confidence | as-written member | corrected member |
|---|---|---|---|---|---|---|
| src/Service/StripeService.php:368 | `preg_match('/^\d{3,4}$/', $cvc)`: without the `D` modifier, `$` also matches before a final newline | CVC "123\n" is accepted | exactly three or four digits | high, not executed | Cards.CvcCheckDiffersOnlyOnTrailingNewline | Cards.CardDataVerdict |
| src/Controller/TicketController.php:143 | `in_array($data['status'], $validStatuses)` compares loosely, and JSON `true` equals every non-empty string | `{"status": true}` is accepted and stored as status "1" | only the four status words | high, not executed | Tickets.LooseStatusCheckAdmitsTrue | Tickets.UpdateKeepsTicketValid |
| src/Controller/AuthController.php:149-152 | the failure that locks the account answers `retry_after` 60 ("locked for 1 minute") | the 10th failure locks for 300 s, yet a client retrying after 60 s is still locked out | `retry_after` is the lock's remaining time, as on line 140 | high, not executed | Auth.AsWrittenRetryTooEarly | Auth.RetryAfterIsExact |

In each row the as-written behaviour is a Dafny definition:
`Cards.CvcValidAsWritten`, `Tickets.StatusAcceptedAsWritten` and
`Auth.ApiResponseAsWritten`. The rest of the model uses the corrected one:
`Cards.CvcValid`, `Tickets.StatusAccepted` and `Auth.ApiResponseOf`.
