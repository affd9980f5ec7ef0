// Rows, requests and failures of the ticketing store, and the payment decision.
// Times are integers on one clock; uuids are naturals; a digest is modelled by the
// value it digests, so equal digests mean equal requests.
module Domain {

  type Time = int
  type Uuid = nat
  type Actor = string
  type SeatId = string

  datatype Option<+T> = None | Some(value: T)

  datatype Failure =
    | InvalidSeats | EventNotFound | SaleClosed | SeatNotFound | SeatUnavailable
    | IdempotencyMismatch | CommandMismatch | HoldExpired | HoldNotFound
    | AlreadyBooked | OrderNotFound | OrderNotPayable
    | PaymentNotFound | PaymentMismatch | CallbackMismatch
    // Errors that are not a business failure: the transaction raises and rolls back.
    | UniqueViolation | ForeignKeyViolation
    | UnsupportedSchema | UnknownEvent | NoPaidOrder | InvalidLimit

  datatype Result<+T> = Ok(value: T) | Err(code: Failure)

  datatype HoldStatus = ACTIVE | RELEASED | EXPIRED | CONSUMED
  datatype OrderStatus =
    | Pending | Failed | Expired | RefundPending | Refunded | Paid | Fulfilled
  datatype PaymentStatus = Awaiting | Declined | Succeeded
  datatype PaymentOutcome = OutcomeSucceeded | OutcomeFailed
  datatype Decision = Unchanged | Fail | Book | Refund

  predicate IsPaid(s: OrderStatus) { s.Paid? || s.Fulfilled? }
  predicate IsRefund(s: OrderStatus) { s.RefundPending? || s.Refunded? }

  function PaymentDecision(status: OrderStatus, validHold: bool, outcome: PaymentOutcome): (d: Decision)
    // A financial success is never discarded: it books, refunds, or the order was already paid.
    ensures outcome.OutcomeSucceeded? ==> (d.Unchanged? <==> IsPaid(status))
    // Only a pending order on a valid hold is booked, and only by a success.
    ensures d.Book? <==> outcome.OutcomeSucceeded? && status.Pending? && validHold
    // A declined payment never touches an order that already left PENDING.
    ensures d.Fail? <==> outcome.OutcomeFailed? && status.Pending?
  {
    if IsPaid(status) then Unchanged
    else if outcome.OutcomeFailed? then
      if status.Pending? then Fail else Unchanged
    else if status.Pending? && validHold then Book else Refund
  }

  datatype SeatKey = SeatKey(event: Uuid, seat: SeatId)

  datatype EventRow = EventRow(currency: string, saleStarts: Time, saleEnds: Time)
  datatype SeatRow = SeatRow(
    price: nat, holdId: Option<Uuid>, reservedUntil: Option<Time>, bookedOrder: Option<Uuid>, version: nat)
  datatype HoldRow = HoldRow(actor: Actor, event: Uuid, expiresAt: Time, status: HoldStatus)
  datatype OrderRow = OrderRow(
    actor: Actor, holdId: Uuid, event: Uuid, total: nat, currency: string, status: OrderStatus, createdAt: Time)
  datatype PaymentRow = PaymentRow(
    order: Uuid, status: PaymentStatus, outcome: PaymentOutcome, dueAt: Time, target: nat)
  datatype RefundRow = RefundRow(order: Uuid, refunded: bool)

  // The seats named by a request, as keys of one event's inventory.
  function Keys(event: Uuid, seats: set<SeatId>): (keys: set<SeatKey>)
    ensures forall k :: k in keys <==> k.event == event && k.seat in seats
  {
    set s | s in seats :: SeatKey(event, s)
  }

  function SeatsOf(keys: set<SeatKey>): (seats: set<SeatId>)
    ensures forall s :: s in seats <==> exists k :: k in keys && k.seat == s
  {
    set k | k in keys :: k.seat
  }
}
