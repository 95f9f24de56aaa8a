/** The two persistent entities of a purchase (src/Entity/Ticket.php and
    src/Entity/Payment.php) and the tables holding them. The entities refer
    to each other (a payment to its ticket, an ad-hoc ticket to its
    payment), so they share a module. Amounts are whole units of the currency;
    instants are whole seconds; generated keys are parameters. */
module Entities {
  import opened Common

  const StatusActive := "ACTIVE"
  const StatusUsed := "USED"
  const StatusExpired := "EXPIRED"
  const StatusCancelled := "CANCELLED"

  /** Nothing left to sell: the quantity is zero, or below it. */
  predicate SoldOut(quantity: int)
  {
    quantity <= 0
  }

  /** A ticket, or a pool of identical tickets when `quantity` > 1. */
  class Ticket {
    const key: string
    var user: Option<UserId>
    var payment: Payment?
    var eventName: Option<string>
    var ticketType: string
    var price: Option<int>
    const issuedAt: int
    var expiresAt: Option<int>
    var status: string
    var quantity: int

    /** A new ticket is ACTIVE, of type GENERAL, with a quantity of one. */
    constructor(key: string, now: int)
      ensures this.key == key && issuedAt == now
      ensures status == StatusActive && quantity == 1 && ticketType == "GENERAL"
      ensures user == None && payment == null && eventName == None
      ensures price == None && expiresAt == None
    {
      this.key := key;
      issuedAt := now;
      user := None;
      payment := null;
      eventName := None;
      ticketType := "GENERAL";
      price := None;
      expiresAt := None;
      status := StatusActive;
      quantity := 1;
    }

    method SetUser(u: UserId)
      modifies this`user
      ensures user == Some(u)
    {
      user := Some(u);
    }

    method SetPayment(p: Payment?)
      modifies this`payment
      ensures payment == p
    {
      payment := p;
    }

    method SetEventName(name: string)
      modifies this`eventName
      ensures eventName == Some(name)
    {
      eventName := Some(name);
    }

    method SetTicketType(t: string)
      modifies this`ticketType
      ensures ticketType == t
    {
      ticketType := t;
    }

    method SetPrice(p: int)
      modifies this`price
      ensures price == Some(p)
    {
      price := Some(p);
    }

    method SetExpiresAt(t: Option<int>)
      modifies this`expiresAt
      ensures expiresAt == t
    {
      expiresAt := t;
    }

    method SetStatus(s: string)
      modifies this`status
      ensures status == s
    {
      status := s;
    }

    /** Stores the quantity clamped at zero. */
    method SetQuantity(q: int)
      modifies this`quantity
      ensures quantity == Max(0, q)
      ensures quantity >= 0 && (q >= 0 ==> quantity == q)
    {
      quantity := Max(0, q);
    }

    /** Takes `amount` away, never going below zero. */
    method DecrementQuantity(amount: int := 1)
      modifies this`quantity
      ensures quantity == Max(0, old(quantity) - amount)
      ensures quantity >= 0
      ensures 0 <= amount <= old(quantity) ==> quantity == old(quantity) - amount
    {
      quantity := Max(0, quantity - amount);
    }

    /** Adds `amount` with no clamp, so a negative amount can drive the
        quantity below zero. */
    method IncrementQuantity(amount: int := 1)
      modifies this`quantity
      ensures quantity == old(quantity) + amount
      ensures old(quantity) >= 0 && amount >= 0 ==> quantity >= 0
    {
      quantity := quantity + amount;
    }

    /** `isSoldOut`. A pool whose quantity never went negative is sold
        out exactly when none is left. */
    predicate IsSoldOut()
      reads this
      ensures quantity >= 0 ==> (IsSoldOut() <==> quantity == 0)
    {
      SoldOut(quantity)
    }
  }

  /** The payment status column. The source stores these four words. */
  datatype PaymentStatus = Pending | Completed | Failed | Cancelled

  /** The record of one card payment. */
  class Payment {
    const paymentId: string
    var user: Option<UserId>
    var amount: Option<int>
    var currency: string
    var status: PaymentStatus
    var transactionId: Option<string>
    var cardBrand: Option<string>
    var cardLastFour: Option<string>
    const createdAt: int
    var completedAt: Option<int>
    var errorMessage: Option<string>
    var ticket: Ticket?

    /** A new payment is PENDING in USD, with no completion data yet. */
    constructor(paymentId: string, now: int)
      ensures this.paymentId == paymentId && createdAt == now
      ensures status == Pending && currency == "USD"
      ensures user == None && amount == None && ticket == null
      ensures transactionId == None && cardBrand == None && cardLastFour == None
      ensures completedAt == None && errorMessage == None
    {
      this.paymentId := paymentId;
      createdAt := now;
      user := None;
      amount := None;
      currency := "USD";
      status := Pending;
      transactionId := None;
      cardBrand := None;
      cardLastFour := None;
      completedAt := None;
      errorMessage := None;
      ticket := null;
    }

    method SetUser(u: UserId)
      modifies this`user
      ensures user == Some(u)
    {
      user := Some(u);
    }

    method SetAmount(a: int)
      modifies this`amount
      ensures amount == Some(a)
    {
      amount := Some(a);
    }

    method SetCurrency(c: string)
      modifies this`currency
      ensures currency == c
    {
      currency := c;
    }

    method SetStatus(s: PaymentStatus)
      modifies this`status
      ensures status == s
    {
      status := s;
    }

    method SetTransactionId(id: string)
      modifies this`transactionId
      ensures transactionId == Some(id)
    {
      transactionId := Some(id);
    }

    method SetCardBrand(brand: string)
      modifies this`cardBrand
      ensures cardBrand == Some(brand)
    {
      cardBrand := Some(brand);
    }

    method SetCardLastFour(lastFour: string)
      modifies this`cardLastFour
      ensures cardLastFour == Some(lastFour)
    {
      cardLastFour := Some(lastFour);
    }

    method SetCompletedAt(t: int)
      modifies this`completedAt
      ensures completedAt == Some(t)
    {
      completedAt := Some(t);
    }

    method SetErrorMessage(message: string)
      modifies this`errorMessage
      ensures errorMessage == Some(message)
    {
      errorMessage := Some(message);
    }

    method SetTicket(t: Ticket?)
      modifies this`ticket
      ensures ticket == t
    {
      ticket := t;
    }

    /** The state every payment is in once its request has finished. */
    predicate Settled()
      reads this
    {
      && status != Pending
      && (status == Completed ==>
            transactionId.Some? && cardBrand.Some? && cardLastFour.Some?
            && completedAt.Some? && ticket != null)
      && (status == Failed ==> errorMessage.Some?)
    }
  }

  /** The `tickets` and `payments` tables. A ticket's id is its position
      in `tickets` plus one (ids are auto-incremented from 1). */
  class Database {
    var tickets: seq<Ticket>
    var payments: seq<Payment>

    constructor()
      ensures tickets == [] && payments == []
    {
      tickets := [];
      payments := [];
    }

    /** No ticket quantity is negative. */
    predicate TicketsValid()
      reads this`tickets, tickets
    {
      forall i :: 0 <= i < |tickets| ==> tickets[i].quantity >= 0
    }

    /** A payment is settled, and if completed its ticket is in the table. */
    predicate Accounted(p: Payment)
      reads this`tickets, p
    {
      p.Settled() && (p.status == Completed ==> p.ticket in tickets)
    }

    /** Between requests: the tickets are valid and every payment is
        accounted for. */
    predicate Valid()
      reads this`tickets, this`payments, tickets, payments
    {
      TicketsValid() && forall i :: 0 <= i < |payments| ==> Accounted(payments[i])
    }

    /** `find($id)` on the tickets table. */
    function Find(id: int): (t: Ticket?)
      reads this
      ensures t != null <==> 1 <= id <= |tickets|
      ensures t != null ==> t in tickets
    {
      if 1 <= id <= |tickets| then tickets[id - 1] else null
    }

    method AddTicket(t: Ticket)
      modifies this`tickets
      ensures tickets == old(tickets) + [t]
    {
      tickets := tickets + [t];
    }

    method AddPayment(p: Payment)
      modifies this`payments
      ensures payments == old(payments) + [p]
    {
      payments := payments + [p];
    }
  }
}
