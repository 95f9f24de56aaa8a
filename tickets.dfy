/** The inventory endpoints of src/Controller/TicketController.php:
    `purchaseTicket` (take tickets from a pool), `updateTicket` (change a
    ticket's fields one check at a time), `createTicket` (add a pool) and
    `getTicketStats` (totals over all tickets). Request bodies are decoded
    JSON objects (`Fields`); generated keys, the clock and the parsing of a
    date are parameters. */
module Tickets {
  import opened Common
  import opened PhpValues
  import opened Entities

  /** The statuses `updateTicket` admits, in the order it lists them. */
  const ValidStatuses: seq<string> := [StatusActive, StatusUsed, StatusExpired, StatusCancelled]

  // ---------------------------------------------------------------------
  // purchaseTicket

  /** The response, by HTTP status and the fields a client acts on. */
  datatype PurchaseResponse =
    | BadQuantity               // 400 "Quantity must be at least 1"
    | SoldOut                   // 409 "Ticket sold out"
    | NotEnough(available: int) // 400 "Insufficient quantity"
    | Purchased(remaining: int) // 200, `remaining_quantity`

  /** `$data['quantity'] ?? 1`. */
  function RequestedValue(data: Fields): Value
  {
    if "quantity" in data then data["quantity"] else Number(1)
  }

  /** The requested quantity is a number of at least one. */
  predicate QuantityAcceptable(data: Fields)
  {
    IsNumeric(RequestedValue(data)) && NumericValue(RequestedValue(data)) >= 1
  }

  /** What `purchaseTicket` answers for a ticket holding `quantity`, and
      the quantity the ticket holds afterwards. */
  function PurchaseOutcome(quantity: int, data: Fields): (r: (PurchaseResponse, int))
    ensures r.0 == BadQuantity <==> !QuantityAcceptable(data)
    ensures r.0 == SoldOut <==> QuantityAcceptable(data) && quantity <= 0
    ensures r.0.NotEnough? <==>
              QuantityAcceptable(data) && 0 < quantity < NumericValue(RequestedValue(data))
    ensures r.0.NotEnough? ==> r.0.available == quantity
    ensures r.0.Purchased? <==>
              QuantityAcceptable(data) && 1 <= NumericValue(RequestedValue(data)) <= quantity
    ensures r.0.Purchased? ==> r.1 == r.0.remaining == quantity - NumericValue(RequestedValue(data))
    ensures !r.0.Purchased? ==> r.1 == quantity
    ensures quantity >= 0 ==> 0 <= r.1 <= quantity
  {
    if !QuantityAcceptable(data) then (BadQuantity, quantity)
    else if quantity <= 0 then (SoldOut, quantity)
    else
      var n := NumericValue(RequestedValue(data));
      if quantity < n then (NotEnough(quantity), quantity)
      else (Purchased(quantity - n), quantity - n)
  }

  /** `purchaseTicket` on the ticket the route resolved. */
  method PurchaseTicket(ticket: Ticket, data: Fields) returns (response: PurchaseResponse)
    modifies ticket`quantity
    ensures (response, ticket.quantity) == PurchaseOutcome(old(ticket.quantity), data)
  {
    var quantity := RequestedValue(data);
    if !(IsNumeric(quantity) && NumericValue(quantity) >= 1) {
      return BadQuantity;
    }
    if ticket.IsSoldOut() {
      return SoldOut;
    }
    if ticket.quantity < NumericValue(quantity) {
      return NotEnough(ticket.quantity);
    }
    ticket.DecrementQuantity(IntCast(quantity));
    response := Purchased(ticket.quantity);
  }

  /** Consecutive purchase requests against one pool: the quantity left
      and the number of tickets sold. */
  function PurchaseSeries(quantity: int, requests: seq<Fields>): (int, int)
    decreases |requests|
  {
    if requests == [] then (quantity, 0)
    else
      var (response, left) := PurchaseOutcome(quantity, requests[0]);
      var (final, sold) := PurchaseSeries(left, requests[1..]);
      (final, sold + (if response.Purchased? then quantity - left else 0))
  }

  /** No oversell: in any sequence of requests handled one after another,
      a pool that starts at K never goes negative, every ticket sold is
      taken from it, and so at most K are sold. Concurrent requests are not
      modelled. */
  lemma {:induction false} NoOversell(quantity: int, requests: seq<Fields>)
    requires quantity >= 0
    ensures var (final, sold) := PurchaseSeries(quantity, requests);
            final >= 0 && sold >= 0 && final + sold == quantity && sold <= quantity
    decreases |requests|
  {
    if requests != [] {
      var (_, left) := PurchaseOutcome(quantity, requests[0]);
      NoOversell(left, requests[1..]);
    }
  }

  /** Requests for one ticket each against a pool of K: exactly
      min(K, N) of N requests succeed and the pool ends at K − min(K, N). */
  lemma {:induction false} SingleTicketRequests(quantity: int, requests: seq<Fields>)
    requires quantity >= 0
    requires forall k :: 0 <= k < |requests| ==> RequestedValue(requests[k]) == Number(1)
    ensures PurchaseSeries(quantity, requests) == (quantity - Min(quantity, |requests|), Min(quantity, |requests|))
    decreases |requests|
  {
    if requests != [] {
      assert RequestedValue(requests[0]) == Number(1);
      var (_, left) := PurchaseOutcome(quantity, requests[0]);
      assert forall k :: 0 <= k < |requests| - 1 ==> requests[1..][k] == requests[k + 1];
      SingleTicketRequests(left, requests[1..]);
    }
  }

  // ---------------------------------------------------------------------
  // updateTicket

  const QuantityNonNegativeMessage := "Quantity must be a non-negative number"
  const InvalidStatusMessage := "Invalid status"
  const PriceMessage := "Price must be a positive number"

  /** The ticket fields `updateTicket` may change. */
  datatype TicketView = TicketView(quantity: int, status: string, ticketType: string,
                                   eventName: Option<string>, price: Option<int>)

  function ViewOf(t: Ticket): TicketView
    reads t
  {
    TicketView(t.quantity, t.status, t.ticketType, t.eventName, t.price)
  }

  /** A number of at least zero: the test applied to a new quantity or price. */
  predicate NonNegativeNumber(v: Value)
  {
    IsNumeric(v) && NumericValue(v) >= 0
  }

  /** `in_array($status, $validStatuses)` as written: PHP's loose `==`
      makes JSON `true` equal to every non-empty string, so `true` is
      admitted. A number is compared as text and never matches. */
  predicate StatusAcceptedAsWritten(v: Value)
  {
    match v
    case Text(s) => s in ValidStatuses
    case Flag(b) => b
    case Number(_) => false
  }

  /** The evidently intended status check: one of the four status words. */
  predicate StatusAccepted(v: Value)
  {
    v.Text? && v.s in ValidStatuses
  }

  /** The loose check admits JSON `true`, which `setStatus` then stores as
      "1", a status outside the four; on every other value the two checks
      agree. */
  lemma LooseStatusCheckAdmitsTrue(v: Value)
    ensures StatusAcceptedAsWritten(Flag(true)) && !StatusAccepted(Flag(true))
    ensures AsText(Flag(true)) == "1" && AsText(Flag(true)) !in ValidStatuses
    ensures v != Flag(true) ==> (StatusAcceptedAsWritten(v) <==> StatusAccepted(v))
  {
  }

  /** What `updateTicket` does to the ticket, check by check: an accepted
      field is written at once, so a rejection further down leaves the
      earlier fields changed in memory (they are not flushed). */
  function UpdateOutcome(v: TicketView, data: Fields): (r: (TicketView, Check))
    ensures r.1 == Valid
            <==> && ("quantity" in data ==> NonNegativeNumber(data["quantity"]))
                 && ("status" in data ==> StatusAccepted(data["status"]))
                 && ("price" in data ==> NonNegativeNumber(data["price"]))
    // a refused status comes after the quantity is written and before anything else
    ensures r.1 == Invalid(InvalidStatusMessage) ==> r.0 == v.(quantity := r.0.quantity)
    // a refused price comes last: the price alone is kept
    ensures r.1 == Invalid(PriceMessage) ==> r.0.price == v.price
  {
    if "quantity" in data && !NonNegativeNumber(data["quantity"]) then (v, Invalid(QuantityNonNegativeMessage))
    else
      var v1 := if "quantity" in data then v.(quantity := Max(0, IntCast(data["quantity"]))) else v;
      if "status" in data && !StatusAccepted(data["status"]) then (v1, Invalid(InvalidStatusMessage))
      else
        var v2 := if "status" in data then v1.(status := AsText(data["status"])) else v1;
        var v3 := if "ticket_type" in data then v2.(ticketType := AsText(data["ticket_type"])) else v2;
        var v4 := if "event_name" in data then v3.(eventName := Some(AsText(data["event_name"]))) else v3;
        if "price" in data && !NonNegativeNumber(data["price"]) then (v4, Invalid(PriceMessage))
        else (if "price" in data then v4.(price := Some(NumericValue(data["price"]))) else v4, Valid)
  }

  /** `updateTicket` (the ownership check is left out). `Valid` is the
      200 response after the flush; `Invalid` a 400 without one. */
  method UpdateTicket(ticket: Ticket, data: Fields) returns (outcome: Check)
    modifies ticket`quantity, ticket`status, ticket`ticketType, ticket`eventName, ticket`price
    ensures (ViewOf(ticket), outcome) == UpdateOutcome(old(ViewOf(ticket)), data)
  {
    if "quantity" in data {
      if !(IsNumeric(data["quantity"]) && NumericValue(data["quantity"]) >= 0) {
        return Invalid(QuantityNonNegativeMessage);
      }
      ticket.SetQuantity(IntCast(data["quantity"]));
    }
    if "status" in data {
      if !(data["status"].Text? && data["status"].s in ValidStatuses) {
        return Invalid(InvalidStatusMessage);
      }
      ticket.SetStatus(AsText(data["status"]));
    }
    if "ticket_type" in data {
      ticket.SetTicketType(AsText(data["ticket_type"]));
    }
    if "event_name" in data {
      ticket.SetEventName(AsText(data["event_name"]));
    }
    if "price" in data {
      if !(IsNumeric(data["price"]) && NumericValue(data["price"]) >= 0) {
        return Invalid(PriceMessage);
      }
      ticket.SetPrice(NumericValue(data["price"]));
    }
    return Valid;
  }

  /** An update never makes a quantity negative and never leaves a
      status outside the four; a bad quantity is refused before anything
      changes. */
  lemma UpdateKeepsTicketValid(v: TicketView, data: Fields)
    requires v.quantity >= 0 && v.status in ValidStatuses
    ensures var (w, _) := UpdateOutcome(v, data);
            w.quantity >= 0 && w.status in ValidStatuses
    ensures "quantity" in data && !NonNegativeNumber(data["quantity"])
            ==> UpdateOutcome(v, data) == (v, Invalid(QuantityNonNegativeMessage))
  {
  }

  /** An accepted update writes every field the request carries and keeps
      every field it does not. */
  lemma UpdateAppliesEveryField(v: TicketView, data: Fields)
    requires UpdateOutcome(v, data).1 == Valid
    ensures var w := UpdateOutcome(v, data).0;
            && w.quantity == (if "quantity" in data then IntCast(data["quantity"]) else v.quantity)
            && w.status == (if "status" in data then data["status"].s else v.status)
            && w.ticketType == (if "ticket_type" in data then AsText(data["ticket_type"]) else v.ticketType)
            && w.eventName == (if "event_name" in data then Some(AsText(data["event_name"])) else v.eventName)
            && w.price == (if "price" in data then Some(NumericValue(data["price"])) else v.price)
  {
    if "quantity" in data {
      var q := data["quantity"];
      assert IsNumeric(q) && NumericValue(q) >= 0;
      assert q.Text? ==> IntCast(q) == NumericValue(q);
    }
  }

  /** Updating with a request's own outcome again changes nothing more:
      an accepted update is idempotent. */
  lemma UpdateIdempotent(v: TicketView, data: Fields)
    requires UpdateOutcome(v, data).1 == Valid
    ensures UpdateOutcome(UpdateOutcome(v, data).0, data) == UpdateOutcome(v, data)
  {
    UpdateAppliesEveryField(v, data);
    var w := UpdateOutcome(v, data).0;
    UpdateAppliesEveryField(w, data);
  }

  // ---------------------------------------------------------------------
  // createTicket

  /** The fields `createTicket` requires, in the order it checks them. */
  const CreateFields: seq<string> := ["event_name", "ticket_type", "price", "quantity"]

  const CreatePriceMessage := "Price must be a positive number"
  const CreateQuantityMessage := "Quantity must be a positive number"
  const InvalidExpiryMessage := "Invalid expiry date format"

  function PresentIn(data: Fields): string -> bool
  {
    f => f in data
  }

  /** What `createTicket` checks before it builds the ticket: every
      required field set, then a price and a quantity of at least zero. */
  function CreateCheck(data: Fields): (r: Check)
    ensures var missing := FirstFailing(CreateFields, PresentIn(data));
            missing.Some? ==> r == Invalid("Missing required field: " + missing.value)
    ensures r == Valid <==>
              && (forall k :: 0 <= k < |CreateFields| ==> CreateFields[k] in data)
              && NonNegativeNumber(data["price"]) && NonNegativeNumber(data["quantity"])
    // with every field present, the price is checked before the quantity
    ensures "price" in data && "quantity" in data && FirstFailing(CreateFields, PresentIn(data)).None? ==>
              && (!NonNegativeNumber(data["price"]) ==> r == Invalid(CreatePriceMessage))
              && (NonNegativeNumber(data["price"]) && !NonNegativeNumber(data["quantity"])
                  ==> r == Invalid(CreateQuantityMessage))
  {
    var missing := FirstFailing(CreateFields, PresentIn(data));
    if missing.Some? then Invalid("Missing required field: " + missing.value)
    else
      assert CreateFields[2] == "price" && CreateFields[3] == "quantity";
      if !NonNegativeNumber(data["price"]) then Invalid(CreatePriceMessage)
      else if !NonNegativeNumber(data["quantity"]) then Invalid(CreateQuantityMessage)
      else Valid
  }

  /** The early-return loop of `createTicket` over its required fields. */
  method FirstMissingCreateField(data: Fields) returns (missing: Option<string>)
    ensures missing == FirstFailing(CreateFields, PresentIn(data))
  {
    var i := 0;
    while i < |CreateFields|
      invariant 0 <= i <= |CreateFields|
      invariant forall k :: 0 <= k < i ==> PresentIn(data)(CreateFields[k])
    {
      if CreateFields[i] !in data {
        FirstFailingAt(CreateFields, PresentIn(data), i);
        return Some(CreateFields[i]);
      }
      i := i + 1;
    }
    return None;
  }

  /** The checks of `createTicket`, in its order. */
  method CheckCreateRequest(data: Fields) returns (check: Check)
    ensures check == CreateCheck(data)
  {
    var missing := FirstMissingCreateField(data);
    if missing.Some? {
      return Invalid("Missing required field: " + missing.value);
    }
    assert CreateFields[2] == "price" && CreateFields[3] == "quantity";
    if !(IsNumeric(data["price"]) && NumericValue(data["price"]) >= 0) {
      return Invalid(CreatePriceMessage);
    }
    if !(IsNumeric(data["quantity"]) && NumericValue(data["quantity"]) >= 0) {
      return Invalid(CreateQuantityMessage);
    }
    return Valid;
  }

  /** `ticket` is the pool ticket `createTicket` builds from `data`. */
  predicate BuiltFrom(ticket: Ticket, data: Fields, user: UserId, ticketKey: string, now: int,
                      expiry: Option<int>)
    reads ticket
  {
    && ticket.key == ticketKey && ticket.user == Some(user) && ticket.payment == null
    && "event_name" in data && ticket.eventName == Some(AsText(data["event_name"]))
    && "ticket_type" in data && ticket.ticketType == AsText(data["ticket_type"])
    && "price" in data && IsNumeric(data["price"]) && ticket.price == Some(NumericValue(data["price"]))
    && "quantity" in data && ticket.quantity == IntCast(data["quantity"])
    && ticket.status == StatusActive && ticket.issuedAt == now && ticket.expiresAt == expiry
  }

  /** The setter calls of `createTicket`, on values already read from the
      request. */
  method BuildTicket(ticketKey: string, now: int, user: UserId, eventName: string, ticketType: string,
                     price: int, quantity: int, expiry: Option<int>)
    returns (ticket: Ticket)
    ensures fresh(ticket)
    ensures && ticket.key == ticketKey && ticket.user == Some(user) && ticket.payment == null
            && ticket.eventName == Some(eventName) && ticket.ticketType == ticketType
            && ticket.price == Some(price) && ticket.quantity == Max(0, quantity)
            && ticket.status == StatusActive && ticket.issuedAt == now && ticket.expiresAt == expiry
  {
    ticket := new Ticket(ticketKey, now);
    ticket.SetUser(user);
    ticket.SetEventName(eventName);
    ticket.SetTicketType(ticketType);
    ticket.SetPrice(price);
    ticket.SetQuantity(quantity);
    ticket.SetStatus(StatusActive);
    ticket.SetExpiresAt(expiry);
  }

  /** The ticket `createTicket` builds from a checked request; the checked
      quantity is kept as it is. */
  method NewPoolTicket(data: Fields, user: UserId, ticketKey: string, now: int, expiry: Option<int>)
    returns (ticket: Ticket)
    requires CreateCheck(data) == Valid
    ensures fresh(ticket)
    ensures BuiltFrom(ticket, data, user, ticketKey, now, expiry) && ticket.quantity >= 0
  {
    assert CreateFields[0] == "event_name" && CreateFields[1] == "ticket_type";
    assert CreateFields[2] == "price" && CreateFields[3] == "quantity";
    var q := data["quantity"];
    assert q.Text? ==> IntCast(q) == NumericValue(q);
    ticket := BuildTicket(ticketKey, now, user, AsText(data["event_name"]), AsText(data["ticket_type"]),
                          NumericValue(data["price"]), IntCast(q), expiry);
  }

  /** `createTicket`. `expiry` is what parsing `expires_at` gives, `None`
      when the date cannot be parsed. The source builds the ticket before
      it parses the date, but a ticket it does not persist is never seen,
      so the model parses first. */
  method CreateTicket(db: Database, data: Fields, user: UserId, ticketKey: string, now: int,
                      expiry: Option<int>)
    returns (outcome: Check, ticket: Ticket?)
    requires db.TicketsValid()
    modifies db`tickets
    ensures db.TicketsValid()
    ensures outcome == Valid <==> CreateCheck(data) == Valid && ("expires_at" in data ==> expiry.Some?)
    ensures CreateCheck(data).Invalid? ==> outcome == CreateCheck(data)
    ensures CreateCheck(data) == Valid && "expires_at" in data && expiry.None?
            ==> outcome == Invalid(InvalidExpiryMessage)
    ensures outcome.Invalid? ==> ticket == null && db.tickets == old(db.tickets)
    ensures outcome == Valid ==>
              && ticket != null && fresh(ticket) && db.tickets == old(db.tickets) + [ticket]
              && BuiltFrom(ticket, data, user, ticketKey, now, if "expires_at" in data then expiry else None)
              && ticket.quantity >= 0
  {
    var check := CheckCreateRequest(data);
    if check.Invalid? {
      return check, null;
    }
    if "expires_at" in data && expiry.None? {
      return Invalid(InvalidExpiryMessage), null;
    }
    ticket := NewPoolTicket(data, user, ticketKey, now, if "expires_at" in data then expiry else None);
    db.AddTicket(ticket);
    outcome := Valid;
  }

  // ---------------------------------------------------------------------
  // getTicketStats

  /** What the statistics read of one ticket. */
  datatype Row = Row(status: string, quantity: int)

  function RowOf(t: Ticket): Row
    reads t
  {
    Row(t.status, t.quantity)
  }

  function Rows(ts: seq<Ticket>): (rows: seq<Row>)
    reads ts
    ensures |rows| == |ts|
  {
    if ts == [] then [] else Rows(ts[..|ts| - 1]) + [RowOf(ts[|ts| - 1])]
  }

  /** The `$stats` array. */
  datatype TicketStats = TicketStats(
    totalTickets: int, active: int, soldOut: int, used: int, expired: int, cancelled: int,
    totalInventory: int, availableInventory: int)

  /** One ticket's contribution, as the body of the `foreach` adds it. */
  function AddRow(s: TicketStats, r: Row): TicketStats
  {
    s.(totalInventory := s.totalInventory + r.quantity,
       availableInventory := s.availableInventory + (if Entities.SoldOut(r.quantity) then 0 else r.quantity),
       active := s.active + (if r.status == StatusActive then 1 else 0),
       used := s.used + (if r.status == StatusUsed then 1 else 0),
       expired := s.expired + (if r.status == StatusExpired then 1 else 0),
       cancelled := s.cancelled + (if r.status == StatusCancelled then 1 else 0),
       soldOut := s.soldOut + (if Entities.SoldOut(r.quantity) then 1 else 0))
  }

  /** The counters after the rows, in order, starting from the initial
      array (whose `total_tickets` is already the number of tickets). */
  function Accumulate(s: TicketStats, rows: seq<Row>): TicketStats
  {
    if rows == [] then s else AddRow(Accumulate(s, rows[..|rows| - 1]), rows[|rows| - 1])
  }

  function StatsOf(rows: seq<Row>): TicketStats
  {
    Accumulate(TicketStats(|rows|, 0, 0, 0, 0, 0, 0, 0), rows)
  }

  /** The number of rows with a given status. */
  function CountStatus(rows: seq<Row>, status: string): (n: nat)
    ensures n <= |rows|
  {
    if rows == [] then 0
    else CountStatus(rows[..|rows| - 1], status) + (if rows[|rows| - 1].status == status then 1 else 0)
  }

  /** The number of sold-out rows. */
  function CountSoldOut(rows: seq<Row>): (n: nat)
    ensures n <= |rows|
  {
    if rows == [] then 0 else CountSoldOut(rows[..|rows| - 1]) + (if Entities.SoldOut(rows[|rows| - 1].quantity) then 1 else 0)
  }

  /** The sum of all quantities, and of the quantities of the rows that are
      not sold out. */
  function SumQuantity(rows: seq<Row>): int
  {
    if rows == [] then 0 else SumQuantity(rows[..|rows| - 1]) + rows[|rows| - 1].quantity
  }

  function SumAvailable(rows: seq<Row>): (n: nat)
  {
    if rows == [] then 0
    else SumAvailable(rows[..|rows| - 1]) + (if Entities.SoldOut(rows[|rows| - 1].quantity) then 0 else rows[|rows| - 1].quantity)
  }

  /** Each counter of the statistics is the count or sum it is named for. */
  lemma {:induction false} AccumulateCounts(total: int, rows: seq<Row>)
    ensures var s := Accumulate(TicketStats(total, 0, 0, 0, 0, 0, 0, 0), rows);
            && s.totalTickets == total
            && s.active == CountStatus(rows, StatusActive) && s.used == CountStatus(rows, StatusUsed)
            && s.expired == CountStatus(rows, StatusExpired) && s.cancelled == CountStatus(rows, StatusCancelled)
            && s.soldOut == CountSoldOut(rows)
            && s.totalInventory == SumQuantity(rows) && s.availableInventory == SumAvailable(rows)
  {
    if rows != [] {
      AccumulateCounts(total, rows[..|rows| - 1]);
    }
  }

  /** Every ticket has one status, so the four status counters never add
      up to more than the tickets. */
  lemma {:induction false} StatusCountsBounded(rows: seq<Row>)
    ensures CountStatus(rows, StatusActive) + CountStatus(rows, StatusUsed) + CountStatus(rows, StatusExpired)
            + CountStatus(rows, StatusCancelled) <= |rows|
  {
    if rows != [] {
      StatusCountsBounded(rows[..|rows| - 1]);
    }
  }

  /** The available inventory is never negative and never below the total:
      a sold-out row adds nothing to it but may subtract from the total. */
  lemma {:induction false} AvailableAtLeastTotal(rows: seq<Row>)
    ensures SumQuantity(rows) <= SumAvailable(rows)
  {
    if rows != [] {
      AvailableAtLeastTotal(rows[..|rows| - 1]);
    }
  }

  /** With no negative quantity (which the entity's setters guarantee)
      both inventories agree. */
  lemma {:induction false} InventoriesAgree(rows: seq<Row>)
    requires forall k :: 0 <= k < |rows| ==> rows[k].quantity >= 0
    ensures SumAvailable(rows) == SumQuantity(rows)
  {
    if rows != [] {
      InventoriesAgree(rows[..|rows| - 1]);
    }
  }

  /** Nothing is available exactly when every ticket is sold out. */
  lemma {:induction false} NothingAvailableIffAllSoldOut(rows: seq<Row>)
    ensures SumAvailable(rows) == 0 <==> CountSoldOut(rows) == |rows|
  {
    if rows != [] {
      NothingAvailableIffAllSoldOut(rows[..|rows| - 1]);
    }
  }

  /** What the statistics report. */
  lemma StatsProperties(rows: seq<Row>)
    ensures var s := StatsOf(rows);
            && s.totalTickets == |rows|
            && 0 <= s.soldOut <= |rows|
            && s.active + s.used + s.expired + s.cancelled <= |rows|
            && s.totalInventory <= s.availableInventory
            && (s.availableInventory == 0 <==> s.soldOut == |rows|)
    ensures (forall k :: 0 <= k < |rows| ==> rows[k].quantity >= 0)
            ==> StatsOf(rows).availableInventory == StatsOf(rows).totalInventory
  {
    AccumulateCounts(|rows|, rows);
    StatusCountsBounded(rows);
    AvailableAtLeastTotal(rows);
    NothingAvailableIffAllSoldOut(rows);
    if forall k :: 0 <= k < |rows| ==> rows[k].quantity >= 0 {
      InventoriesAgree(rows);
    }
  }

  /** `getTicketStats` over the whole tickets table. */
  method GetTicketStats(db: Database) returns (stats: TicketStats)
    ensures stats == StatsOf(Rows(db.tickets))
  {
    var all := db.tickets;
    stats := TicketStats(|all|, 0, 0, 0, 0, 0, 0, 0);
    var i := 0;
    while i < |all|
      invariant 0 <= i <= |all|
      invariant stats == Accumulate(TicketStats(|all|, 0, 0, 0, 0, 0, 0, 0), Rows(all[..i]))
    {
      var t := all[i];
      ghost var before := stats;
      stats := stats.(totalInventory := stats.totalInventory + t.quantity);
      stats := stats.(availableInventory := stats.availableInventory + if t.IsSoldOut() then 0 else t.quantity);
      if t.status == StatusActive {
        stats := stats.(active := stats.active + 1);
      } else if t.status == StatusUsed {
        stats := stats.(used := stats.used + 1);
      } else if t.status == StatusExpired {
        stats := stats.(expired := stats.expired + 1);
      } else if t.status == StatusCancelled {
        stats := stats.(cancelled := stats.cancelled + 1);
      }
      if t.IsSoldOut() {
        stats := stats.(soldOut := stats.soldOut + 1);
      }
      assert stats == AddRow(before, RowOf(t));
      assert all[..i + 1][..i] == all[..i];
      assert Rows(all[..i + 1]) == Rows(all[..i]) + [RowOf(t)];
      i := i + 1;
    }
    assert all[..i] == all;
  }
}
