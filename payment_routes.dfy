/** The payment router of the backend: registration for paid events, payment
    status updates, per-event payment statistics and the "has paid" check,
    over an in-memory event table and payment list.

    The database calls become lookups and updates on `Db`; the authenticated
    caller (decoded from the bearer token) is a given `Caller`; the clock is an
    integer `now` (milliseconds, as `Date.now()`). A string field that the
    request may leave out, or send empty, is "" (both are falsy in JavaScript). */
module PaymentRoutes {
  import opened Optional
  import opened Decimal

  type EventId = string
  type UserId = string
  /** A payment is found by its position in the payment list; payments are never deleted. */
  type PaymentId = nat

  const CASH: string := "Cash on Registration"
  const DEFAULT_METHOD: string := "GPay"
  const PENDING: string := "pending"
  const COMPLETED: string := "completed"
  const FAILED: string := "failed"
  const ADMIN: string := "admin"

  const REGISTERED_MSG: string := "Registration and payment successful!"
  const EVENT_NOT_FOUND: string := "Event not found"
  const PAYMENT_NOT_FOUND: string := "Payment record not found"
  const UNAUTHORIZED: string := "Unauthorized"
  /** Stands for the raw exception text of a 500 reply, which is not modelled. */
  const SERVER_ERROR: string := "Internal error"

  /** An event document, restricted to the fields the router reads or writes.
      `maxAttendees == 0` stands for both an absent and a zero limit. */
  datatype Event = Event(
    isPaid: bool,
    price: int,
    currency: string,
    startAt: int,
    maxAttendees: nat,
    registeredUsers: seq<UserId>,
    createdBy: UserId)

  datatype ContactInfo = ContactInfo(fullName: string, email: string, phone: string, address: string)

  datatype Payment = Payment(
    eventId: EventId,
    userId: UserId,
    amount: int,
    currency: string,
    paymentMethod: string,
    paymentStatus: string,
    transactionId: string,
    paymentDate: Option<int>,
    contactInfo: Option<ContactInfo>)

  /** The authenticated caller: the token's user id and role claim. */
  datatype Caller = Caller(userId: UserId, role: string)

  /** The two collections the router reads and writes. */
  datatype Db = Db(events: map<EventId, Event>, payments: seq<Payment>)

  /** A handler's reply: a value, or an HTTP status with the `error` text. */
  datatype Result<T> = Ok(value: T) | Err(status: nat, error: string)

  /** The JSON body as the frontend reads it: `msg` and `error`, "" when absent. */
  datatype Reply = Reply(msg: string, error: string)

  // ---------------------------------------------------------------------------
  // Register for a paid event
  // ---------------------------------------------------------------------------

  /** Body of `POST /register-paid-event/:eventId`. */
  datatype RegisterRequest = RegisterRequest(
    paymentMethod: string,
    contactInfo: Option<ContactInfo>,
    transactionId: string)

  /** The registration guards, in the order the handler checks them. */
  datatype RegisterError =
    | EventNotFound
    | FreeEvent
    | PastEvent
    | AlreadyRegistered
    | EventFull
    | AlreadyPaid
    | IncompleteContact
  {
    function Rank(): nat
    {
      match this
      case EventNotFound => 0
      case FreeEvent => 1
      case PastEvent => 2
      case AlreadyRegistered => 3
      case EventFull => 4
      case AlreadyPaid => 5
      case IncompleteContact => 6
    }

    function Status(): nat
    {
      if this == EventNotFound then 404 else 400
    }

    function Message(): (m: string)
      ensures m != ""
    {
      match this
      case EventNotFound => EVENT_NOT_FOUND
      case FreeEvent => "This event is free. Use regular registration."
      case PastEvent => "Cannot register for past events"
      case AlreadyRegistered => "Already registered for this event"
      case EventFull => "Event is full"
      case AlreadyPaid => "Payment already completed for this event"
      case IncompleteContact => "Please provide complete contact information"
    }
  }

  predicate IsCompletedFor(p: Payment, eventId: EventId, userId: UserId)
  {
    p.eventId == eventId && p.userId == userId && p.paymentStatus == COMPLETED
  }

  /** Some payment of `userId` for `eventId` is completed. */
  predicate HasCompletedPayment(payments: seq<Payment>, eventId: EventId, userId: UserId)
  {
    exists i :: 0 <= i < |payments| && IsCompletedFor(payments[i], eventId, userId)
  }

  /** `Payment.findOne({eventId, userId, paymentStatus: "completed"})`: the
      position of the first completed payment of the pair, if any. */
  function FindCompleted(payments: seq<Payment>, eventId: EventId, userId: UserId): (r: Option<PaymentId>)
    ensures r.Some? ==> r.value < |payments| && IsCompletedFor(payments[r.value], eventId, userId)
    ensures r.Some? ==> forall j :: 0 <= j < r.value ==> !IsCompletedFor(payments[j], eventId, userId)
    ensures r.None? <==> !HasCompletedPayment(payments, eventId, userId)
  {
    if |payments| == 0 then None
    else if IsCompletedFor(payments[0], eventId, userId) then Some(0)
    else match FindCompleted(payments[1..], eventId, userId)
      case None => None
      case Some(k) => Some(k + 1)
  }

  /** The backend asks for a name, an e-mail address and a phone number; the address is optional. */
  predicate ContactComplete(contact: Option<ContactInfo>)
  {
    contact.Some? && contact.value.fullName != "" && contact.value.email != "" && contact.value.phone != ""
  }

  /** A limit of 0 means "no limit"; otherwise the event is full at the limit. */
  predicate IsFull(ev: Event)
  {
    ev.maxAttendees != 0 && |ev.registeredUsers| >= ev.maxAttendees
  }

  /** Whether the guard that reports `e` fails, judged on its own. */
  predicate GuardFails(e: RegisterError, db: Db, eventId: EventId, userId: UserId, req: RegisterRequest, now: int)
  {
    match e
    case EventNotFound => eventId !in db.events
    case FreeEvent => eventId in db.events && (!db.events[eventId].isPaid || db.events[eventId].price == 0)
    case PastEvent => eventId in db.events && db.events[eventId].startAt < now
    case AlreadyRegistered => eventId in db.events && userId in db.events[eventId].registeredUsers
    case EventFull => eventId in db.events && IsFull(db.events[eventId])
    case AlreadyPaid => HasCompletedPayment(db.payments, eventId, userId)
    case IncompleteContact => !ContactComplete(req.contactInfo)
  }

  /** The error the handler reports: the first guard, in handler order, that fails. */
  function FirstFailure(db: Db, eventId: EventId, userId: UserId, req: RegisterRequest, now: int): (r: Option<RegisterError>)
    ensures r.None? ==> forall e: RegisterError :: !GuardFails(e, db, eventId, userId, req, now)
    ensures r.Some? ==> GuardFails(r.value, db, eventId, userId, req, now)
    ensures r.Some? ==> forall e: RegisterError :: e.Rank() < r.value.Rank() ==> !GuardFails(e, db, eventId, userId, req, now)
  {
    if eventId !in db.events then Some(EventNotFound)
    else
      var ev := db.events[eventId];
      if !ev.isPaid || ev.price == 0 then Some(FreeEvent)
      else if ev.startAt < now then Some(PastEvent)
      else if userId in ev.registeredUsers then Some(AlreadyRegistered)
      else if IsFull(ev) then Some(EventFull)
      else if FindCompleted(db.payments, eventId, userId).Some? then Some(AlreadyPaid)
      else if !ContactComplete(req.contactInfo) then Some(IncompleteContact)
      else None
  }

  /** The placeholder `TXN_<now>_<userId>` used when no transaction id is given. */
  function GeneratedTransactionId(now: int, userId: UserId): (t: string)
    ensures "TXN_" <= t
  {
    "TXN_" + IntToString(now) + "_" + userId
  }

  /** The payment document a successful registration creates. */
  function NewPayment(ev: Event, eventId: EventId, userId: UserId, req: RegisterRequest, now: int): (p: Payment)
    ensures p.paymentStatus == PENDING <==> req.paymentMethod == CASH
    ensures p.paymentStatus == COMPLETED <==> req.paymentMethod != CASH
    ensures p.paymentDate.Some? <==> p.paymentStatus == COMPLETED
    ensures p.paymentDate.Some? ==> p.paymentDate.value == now
    ensures p.eventId == eventId && p.userId == userId
    ensures p.amount == ev.price && p.currency == ev.currency
    ensures p.paymentMethod == (if req.paymentMethod == "" then DEFAULT_METHOD else req.paymentMethod)
    ensures p.transactionId != ""
    ensures req.transactionId != "" ==> p.transactionId == req.transactionId
    ensures p.contactInfo == req.contactInfo
  {
    var status := if req.paymentMethod == CASH then PENDING else COMPLETED;
    Payment(
      eventId,
      userId,
      ev.price,
      ev.currency,
      if req.paymentMethod != "" then req.paymentMethod else DEFAULT_METHOD,
      status,
      if req.transactionId != "" then req.transactionId else GeneratedTransactionId(now, userId),
      if status == COMPLETED then Some(now) else None,
      req.contactInfo)
  }

  /** The whole effect of `POST /register-paid-event/:eventId` on the reply and
      on the database: on success one payment is appended and the caller is
      appended to the event's registrants; on failure nothing is written. */
  function Register(db: Db, eventId: EventId, userId: UserId, req: RegisterRequest, now: int): (r: (Result<Payment>, Db))
    ensures r.0.Err? <==> FirstFailure(db, eventId, userId, req, now).Some?
    ensures r.0.Err? ==> r.1 == db
    ensures r.0.Err? ==> r.0.status == (if eventId in db.events then 400 else 404)
    ensures r.0.Err? ==> r.0 == Err(FirstFailure(db, eventId, userId, req, now).value.Status(),
                                    FirstFailure(db, eventId, userId, req, now).value.Message())
    ensures r.0.Ok? ==> eventId in db.events && r.0.value == NewPayment(db.events[eventId], eventId, userId, req, now)
    ensures r.0.Ok? ==> r.1.payments == db.payments + [r.0.value]
    ensures r.0.Ok? ==> r.1.events.Keys == db.events.Keys
    ensures r.0.Ok? ==> forall id :: id in db.events && id != eventId ==> r.1.events[id] == db.events[id]
    ensures r.0.Ok? ==> r.1.events[eventId] == db.events[eventId].(registeredUsers := db.events[eventId].registeredUsers + [userId])
  {
    match FirstFailure(db, eventId, userId, req, now)
    case Some(e) => (Err(e.Status(), e.Message()), db)
    case None =>
      var ev := db.events[eventId];
      var p := NewPayment(ev, eventId, userId, req, now);
      (Ok(p), Db(db.events[eventId := ev.(registeredUsers := ev.registeredUsers + [userId])], db.payments + [p]))
  }

  function RegisterReply(r: Result<Payment>): Reply
  {
    match r
    case Ok(_) => Reply(REGISTERED_MSG, "")
    case Err(_, error) => Reply("", error)
  }

  // ---------------------------------------------------------------------------
  // Update a payment's status
  // ---------------------------------------------------------------------------

  /** Body of `PATCH /update-status/:paymentId`; "" means the field was not supplied. */
  datatype UpdateRequest = UpdateRequest(paymentStatus: string, transactionId: string)

  /** The payer, the event's creator and an administrator may update a payment. */
  predicate MayUpdatePayment(p: Payment, ev: Event, caller: Caller)
  {
    p.userId == caller.userId || ev.createdBy == caller.userId || caller.role == ADMIN
  }

  /** The field-wise update: status and transaction id change only when
      supplied, and the payment date is stamped on a move to "completed" only
      while it is unset. */
  function ApplyUpdate(p: Payment, req: UpdateRequest, now: int): (q: Payment)
    ensures q == p.(paymentStatus := q.paymentStatus, transactionId := q.transactionId, paymentDate := q.paymentDate)
    ensures q.paymentStatus == (if req.paymentStatus == "" then p.paymentStatus else req.paymentStatus)
    ensures q.transactionId == (if req.transactionId == "" then p.transactionId else req.transactionId)
    ensures p.paymentDate.Some? ==> q.paymentDate == p.paymentDate
    ensures q.paymentDate != p.paymentDate <==> p.paymentDate.None? && req.paymentStatus == COMPLETED
    ensures q.paymentDate != p.paymentDate ==> q.paymentDate == Some(now)
  {
    var status := if req.paymentStatus != "" then req.paymentStatus else p.paymentStatus;
    var date := if req.paymentStatus == COMPLETED && p.paymentDate.None? then Some(now) else p.paymentDate;
    var txn := if req.transactionId != "" then req.transactionId else p.transactionId;
    p.(paymentStatus := status, paymentDate := date, transactionId := txn)
  }

  /** The whole effect of `PATCH /update-status/:paymentId`. A payment whose
      event no longer exists makes the handler fail with 500. */
  function UpdateStatus(db: Db, paymentId: PaymentId, caller: Caller, req: UpdateRequest, now: int): (r: (Result<Payment>, Db))
    ensures r.0.Err? ==> r.1 == db
    ensures r.0 == Err(404, PAYMENT_NOT_FOUND) <==> paymentId >= |db.payments|
    ensures r.0 == Err(500, SERVER_ERROR) <==>
      paymentId < |db.payments| && db.payments[paymentId].eventId !in db.events
    ensures r.0.Err? && r.0.status == 403 <==>
      paymentId < |db.payments| && db.payments[paymentId].eventId in db.events &&
      !MayUpdatePayment(db.payments[paymentId], db.events[db.payments[paymentId].eventId], caller)
    ensures r.0.Ok? <==>
      paymentId < |db.payments| && db.payments[paymentId].eventId in db.events &&
      MayUpdatePayment(db.payments[paymentId], db.events[db.payments[paymentId].eventId], caller)
    ensures r.0.Ok? ==> r.0.value == ApplyUpdate(db.payments[paymentId], req, now)
    ensures r.0.Ok? ==> r.1 == db.(payments := db.payments[paymentId := r.0.value])
  {
    if paymentId >= |db.payments| then (Err(404, PAYMENT_NOT_FOUND), db)
    else
      var p := db.payments[paymentId];
      if p.eventId !in db.events then (Err(500, SERVER_ERROR), db)
      else if !MayUpdatePayment(p, db.events[p.eventId], caller) then (Err(403, UNAUTHORIZED), db)
      else
        var q := ApplyUpdate(p, req, now);
        (Ok(q), db.(payments := db.payments[paymentId := q]))
  }

  // ---------------------------------------------------------------------------
  // Queries
  // ---------------------------------------------------------------------------

  /** The query conditions the handlers use. */
  datatype Selector = ByEvent(eventId: EventId) | ByUser(userId: UserId) | ByStatus(status: string)

  predicate Selects(sel: Selector, p: Payment)
  {
    match sel
    case ByEvent(e) => p.eventId == e
    case ByUser(u) => p.userId == u
    case ByStatus(s) => p.paymentStatus == s
  }

  /** `find`/`filter`: the selected payments, each as often as in the input
      (`WhereCounts`), in list order (`WhereAppend`). */
  function Where(ps: seq<Payment>, sel: Selector): (r: seq<Payment>)
    ensures |r| <= |ps|
    ensures forall p :: p in r <==> p in ps && Selects(sel, p)
  {
    if ps == [] then []
    else
      var last := ps[|ps| - 1];
      Where(ps[..|ps| - 1], sel) + (if Selects(sel, last) then [last] else [])
  }

  /** A selected payment occurs as often in the result as in the input, and
      any other not at all: nothing is dropped, merged or duplicated. */
  lemma {:induction false} WhereCounts(ps: seq<Payment>, sel: Selector)
    ensures forall p :: multiset(Where(ps, sel))[p] == if Selects(sel, p) then multiset(ps)[p] else 0
  {
    if ps != [] {
      var init, last := ps[..|ps| - 1], ps[|ps| - 1];
      WhereCounts(init, sel);
      assert ps == init + [last];
      assert multiset(ps) == multiset(init) + multiset{last};
    }
  }

  /** `reduce((sum, p) => sum + p.amount, 0)`. */
  function SumAmounts(ps: seq<Payment>): int
  {
    if ps == [] then 0 else SumAmounts(ps[..|ps| - 1]) + ps[|ps| - 1].amount
  }

  datatype Stats = Stats(total: nat, completed: nat, pending: nat, failed: nat, totalRevenue: int)

  /** The statistics object of `GET /event/:eventId` over the payments `ps`. */
  function StatsOf(ps: seq<Payment>): (st: Stats)
    ensures st.total == |ps|
    ensures st.completed <= st.total && st.pending <= st.total && st.failed <= st.total
    ensures st.completed == 0 ==> st.totalRevenue == 0
  {
    Stats(
      |ps|,
      |Where(ps, ByStatus(COMPLETED))|,
      |Where(ps, ByStatus(PENDING))|,
      |Where(ps, ByStatus(FAILED))|,
      SumAmounts(Where(ps, ByStatus(COMPLETED))))
  }

  /** Only the event's creator and administrators may see its payments. */
  predicate MayViewEventPayments(ev: Event, caller: Caller)
  {
    ev.createdBy == caller.userId || caller.role == ADMIN
  }

  /** `GET /event/:eventId`: the event's payments and their statistics. */
  function EventPayments(db: Db, eventId: EventId, caller: Caller): (r: Result<(seq<Payment>, Stats)>)
    ensures r == Err(404, EVENT_NOT_FOUND) <==> eventId !in db.events
    ensures r == Err(403, UNAUTHORIZED) <==> eventId in db.events && !MayViewEventPayments(db.events[eventId], caller)
    ensures r.Ok? <==> eventId in db.events && MayViewEventPayments(db.events[eventId], caller)
    ensures r.Ok? ==> forall p :: p in r.value.0 <==> p in db.payments && p.eventId == eventId
    ensures r.Ok? ==> r.value.0 == Where(db.payments, ByEvent(eventId)) && r.value.1 == StatsOf(r.value.0)
  {
    if eventId !in db.events then Err(404, EVENT_NOT_FOUND)
    else if !MayViewEventPayments(db.events[eventId], caller) then Err(403, UNAUTHORIZED)
    else
      var ps := Where(db.payments, ByEvent(eventId));
      Ok((ps, StatsOf(ps)))
  }

  /** `GET /my-payments`: the caller's payments (the newest-first order is not modelled). */
  function MyPayments(db: Db, caller: Caller): (r: seq<Payment>)
    ensures forall p :: p in r <==> p in db.payments && p.userId == caller.userId
    ensures forall p :: multiset(r)[p] == if p.userId == caller.userId then multiset(db.payments)[p] else 0
  {
    WhereCounts(db.payments, ByUser(caller.userId));
    Where(db.payments, ByUser(caller.userId))
  }

  datatype PaidCheck = PaidCheck(hasPaid: bool, payment: Option<Payment>)

  /** `GET /check/:eventId`: whether the caller has a completed payment for the event. */
  function CheckPaid(db: Db, eventId: EventId, userId: UserId): (r: PaidCheck)
    ensures r.hasPaid <==> HasCompletedPayment(db.payments, eventId, userId)
    ensures r.hasPaid <==> r.payment.Some?
    ensures r.payment.Some? ==> r.payment.value in db.payments && IsCompletedFor(r.payment.value, eventId, userId)
  {
    match FindCompleted(db.payments, eventId, userId)
    case None => PaidCheck(false, None)
    case Some(i) => PaidCheck(true, Some(db.payments[i]))
  }

  // ---------------------------------------------------------------------------
  // What the handlers keep true
  // ---------------------------------------------------------------------------

  predicate NoDuplicates(users: seq<UserId>)
  {
    forall i, j :: 0 <= i < j < |users| ==> users[i] != users[j]
  }

  predicate WithinCapacity(ev: Event)
  {
    ev.maxAttendees == 0 || |ev.registeredUsers| <= ev.maxAttendees
  }

  /** Every event's registrants are distinct and within its limit. */
  predicate RegistrantsConsistent(events: map<EventId, Event>)
  {
    forall id :: id in events ==> NoDuplicates(events[id].registeredUsers) && WithinCapacity(events[id])
  }

  /** Every completed payment carries a payment date. */
  predicate CompletedDated(ps: seq<Payment>)
  {
    forall i :: 0 <= i < |ps| && ps[i].paymentStatus == COMPLETED ==> ps[i].paymentDate.Some?
  }

  /** No two completed payments for the same (event, user) pair. */
  predicate UniqueCompleted(ps: seq<Payment>)
  {
    forall i, j :: 0 <= i < j < |ps| && ps[j].paymentStatus == COMPLETED ==> !IsCompletedFor(ps[i], ps[j].eventId, ps[j].userId)
  }

  /** Any event that is not paid, or whose price is 0, is refused with 400 and nothing is written. */
  lemma FreeEventRejected(db: Db, eventId: EventId, userId: UserId, req: RegisterRequest, now: int)
    requires eventId in db.events
    requires !db.events[eventId].isPaid || db.events[eventId].price == 0
    ensures Register(db, eventId, userId, req, now) == (Err(400, FreeEvent.Message()), db)
  {
  }

  /** A successful registration leaves the event within its limit, with the
      caller among its registrants exactly once more than before. */
  lemma RegisterRespectsCapacity(db: Db, eventId: EventId, userId: UserId, req: RegisterRequest, now: int)
    requires Register(db, eventId, userId, req, now).0.Ok?
    ensures var ev := Register(db, eventId, userId, req, now).1.events[eventId];
      WithinCapacity(ev) && userId in ev.registeredUsers &&
      userId !in db.events[eventId].registeredUsers &&
      |ev.registeredUsers| == |db.events[eventId].registeredUsers| + 1
  {
  }

  /** Registration keeps every registrant list duplicate-free and within its
      limit, every completed payment dated, and at most one completed payment
      per (event, user) pair. */
  lemma RegisterPreservesConsistency(db: Db, eventId: EventId, userId: UserId, req: RegisterRequest, now: int)
    requires RegistrantsConsistent(db.events) && CompletedDated(db.payments) && UniqueCompleted(db.payments)
    ensures var db' := Register(db, eventId, userId, req, now).1;
      RegistrantsConsistent(db'.events) && CompletedDated(db'.payments) && UniqueCompleted(db'.payments)
  {
  }

  /** A status update touches no event and keeps every registrant list as it
      was, and keeps every completed payment dated. */
  lemma UpdatePreservesConsistency(db: Db, paymentId: PaymentId, caller: Caller, req: UpdateRequest, now: int)
    requires RegistrantsConsistent(db.events) && CompletedDated(db.payments)
    ensures var db' := UpdateStatus(db, paymentId, caller, req, now).1;
      db'.events == db.events && |db'.payments| == |db.payments| &&
      RegistrantsConsistent(db'.events) && CompletedDated(db'.payments)
  {
  }

  /** No two payments for the same (event, user) pair. */
  predicate OnePaymentPerPair(ps: seq<Payment>)
  {
    forall i, j :: 0 <= i < j < |ps| ==> ps[i].eventId != ps[j].eventId || ps[i].userId != ps[j].userId
  }

  /** Every payment's event exists and lists its payer among the registrants. */
  predicate PayersRegistered(db: Db)
  {
    forall i :: 0 <= i < |db.payments| ==>
      db.payments[i].eventId in db.events && db.payments[i].userId in db.events[db.payments[i].eventId].registeredUsers
  }

  /** What the two writing handlers keep true together: each payment belongs to
      a registrant, and a pair has at most one payment. */
  predicate PaymentsOfRegistrants(db: Db)
  {
    PayersRegistered(db) && OnePaymentPerPair(db.payments)
  }

  lemma OnePaymentPerPairUniqueCompleted(ps: seq<Payment>)
    requires OnePaymentPerPair(ps)
    ensures UniqueCompleted(ps)
  {
  }

  /** Registration writes a payment only for a caller not yet registered, and
      registers that caller, so each payment keeps belonging to a registrant
      and no pair gets a second payment. */
  lemma RegisterKeepsPaymentsOfRegistrants(db: Db, eventId: EventId, userId: UserId, req: RegisterRequest, now: int)
    requires PaymentsOfRegistrants(db)
    ensures var db' := Register(db, eventId, userId, req, now).1;
      PaymentsOfRegistrants(db') && UniqueCompleted(db'.payments)
  {
    var (r, db') := Register(db, eventId, userId, req, now);
    if r.Ok? {
      var n := |db.payments|;
      assert !GuardFails(AlreadyRegistered, db, eventId, userId, req, now);
      forall i | 0 <= i < n
        ensures db'.payments[i].eventId in db'.events
        ensures db'.payments[i].userId in db'.events[db'.payments[i].eventId].registeredUsers
        ensures db'.payments[i].eventId != eventId || db'.payments[i].userId != userId
      {
        assert db'.payments[i] == db.payments[i];
      }
      assert db'.payments[n] == r.value;
    }
    OnePaymentPerPairUniqueCompleted(db'.payments);
  }

  /** A status update keeps each payment's event and payer, so under the
      invariant it never meets a missing event (no 500) and keeps at most one
      completed payment per (event, user). */
  lemma UpdateKeepsPaymentsOfRegistrants(db: Db, paymentId: PaymentId, caller: Caller, req: UpdateRequest, now: int)
    requires PaymentsOfRegistrants(db)
    ensures var r := UpdateStatus(db, paymentId, caller, req, now);
      PaymentsOfRegistrants(r.1) && UniqueCompleted(r.1.payments) && (r.0.Err? ==> r.0.status != 500)
  {
    var (r, db') := UpdateStatus(db, paymentId, caller, req, now);
    if r.Ok? {
      forall i | 0 <= i < |db.payments|
        ensures db'.payments[i].eventId == db.payments[i].eventId && db'.payments[i].userId == db.payments[i].userId
      {
      }
    }
    OnePaymentPerPairUniqueCompleted(db'.payments);
  }

  /** Without that invariant an update can create a second completed payment:
      a pending and a completed payment of one pair (which registering,
      cancelling and registering again could leave behind) and the organizer
      completing the pending one. */
  lemma UpdateCanDuplicateCompleted(ev: Event, p: Payment, organizer: Caller, now: int)
    requires p.paymentStatus == PENDING && p.paymentDate.None?
    requires ev.createdBy == organizer.userId
    ensures var db := Db(map[p.eventId := ev], [p, p.(paymentStatus := COMPLETED, paymentDate := Some(now))]);
      UniqueCompleted(db.payments) && CompletedDated(db.payments) &&
      !UniqueCompleted(UpdateStatus(db, 0, organizer, UpdateRequest(COMPLETED, ""), now).1.payments)
  {
    var db := Db(map[p.eventId := ev], [p, p.(paymentStatus := COMPLETED, paymentDate := Some(now))]);
    var db' := UpdateStatus(db, 0, organizer, UpdateRequest(COMPLETED, ""), now).1;
    assert db'.payments[1].paymentStatus == COMPLETED;
    assert IsCompletedFor(db'.payments[0], db'.payments[1].eventId, db'.payments[1].userId);
  }

  /** Repeating an update changes nothing: in particular a second move to
      "completed" keeps the payment date of the first. */
  lemma ApplyUpdateIdempotent(p: Payment, req: UpdateRequest, now1: int, now2: int)
    ensures ApplyUpdate(ApplyUpdate(p, req, now1), req, now2) == ApplyUpdate(p, req, now1)
  {
  }

  /** Once a completed payment exists for (event, user), the check reports it
      and every registration of that pair is refused without writing anything. */
  lemma PaidPairIsRejected(db: Db, eventId: EventId, userId: UserId, req: RegisterRequest, now: int)
    requires HasCompletedPayment(db.payments, eventId, userId)
    ensures CheckPaid(db, eventId, userId).hasPaid
    ensures Register(db, eventId, userId, req, now).0.Err?
    ensures Register(db, eventId, userId, req, now).1 == db
  {
  }

  /** After a successful registration the pair counts as paid exactly when the
      method was not cash, and registering the pair again is refused. */
  lemma RegisterThenCheck(db: Db, eventId: EventId, userId: UserId, req: RegisterRequest, now: int,
                          req2: RegisterRequest, now2: int)
    requires Register(db, eventId, userId, req, now).0.Ok?
    ensures var db' := Register(db, eventId, userId, req, now).1;
      CheckPaid(db', eventId, userId).hasPaid == (req.paymentMethod != CASH) &&
      Register(db', eventId, userId, req2, now2).0.Err?
  {
    var (r, db') := Register(db, eventId, userId, req, now);
    assert !GuardFails(AlreadyPaid, db, eventId, userId, req, now);
    var n := |db.payments|;
    if req.paymentMethod != CASH {
      assert IsCompletedFor(db'.payments[n], eventId, userId);
    } else {
      forall i | 0 <= i < |db'.payments| ensures !IsCompletedFor(db'.payments[i], eventId, userId) {
        if i < n {
          assert db'.payments[i] == db.payments[i];
        }
      }
    }
    assert GuardFails(AlreadyRegistered, db', eventId, userId, req2, now2);
  }

  lemma WhereSnoc(ps: seq<Payment>, p: Payment, sel: Selector)
    ensures Where(ps + [p], sel) == Where(ps, sel) + (if Selects(sel, p) then [p] else [])
  {
  }

  /** Selection distributes over concatenation, so it keeps the input's order:
      the payments selected from a prefix come before those from the rest. */
  lemma {:induction false} WhereAppend(ps: seq<Payment>, qs: seq<Payment>, sel: Selector)
    ensures Where(ps + qs, sel) == Where(ps, sel) + Where(qs, sel)
  {
    if qs == [] {
      assert ps + qs == ps;
    } else {
      var init, last := qs[..|qs| - 1], qs[|qs| - 1];
      var tail := if Selects(sel, last) then [last] else [];
      assert qs == init + [last];
      assert ps + qs == (ps + init) + [last];
      calc {
        Where(ps + qs, sel);
        { WhereSnoc(ps + init, last, sel); }
        Where(ps + init, sel) + tail;
        { WhereAppend(ps, init, sel); }
        (Where(ps, sel) + Where(init, sel)) + tail;
        Where(ps, sel) + (Where(init, sel) + tail);
        { WhereSnoc(init, last, sel); }
        Where(ps, sel) + Where(qs, sel);
      }
    }
  }

  lemma SumAmountsSnoc(ps: seq<Payment>, p: Payment)
    ensures SumAmounts(ps + [p]) == SumAmounts(ps) + p.amount
  {
  }

  /** The completed, pending and failed counts never exceed the total. */
  lemma {:induction false} StatusCountsAtMostTotal(ps: seq<Payment>)
    ensures var st := StatsOf(ps); st.completed + st.pending + st.failed <= st.total
  {
    if ps != [] {
      var init := ps[..|ps| - 1];
      StatusCountsAtMostTotal(init);
      assert ps == init + [ps[|ps| - 1]];
      WhereSnoc(init, ps[|ps| - 1], ByStatus(COMPLETED));
      WhereSnoc(init, ps[|ps| - 1], ByStatus(PENDING));
      WhereSnoc(init, ps[|ps| - 1], ByStatus(FAILED));
    }
  }

  /** When every status is one of the three, the three counts add up to the total. */
  lemma {:induction false} StatusCountsCoverTotal(ps: seq<Payment>)
    requires forall p :: p in ps ==> p.paymentStatus in {COMPLETED, PENDING, FAILED}
    ensures var st := StatsOf(ps); st.completed + st.pending + st.failed == st.total
  {
    if ps != [] {
      var init := ps[..|ps| - 1];
      var last := ps[|ps| - 1];
      assert ps == init + [last];
      assert forall p :: p in init ==> p in ps;
      StatusCountsCoverTotal(init);
      assert last in ps;
      WhereSnoc(init, last, ByStatus(COMPLETED));
      WhereSnoc(init, last, ByStatus(PENDING));
      WhereSnoc(init, last, ByStatus(FAILED));
    }
  }

  /** Appending one payment adds it to the total, to the count of its status
      and, when it is completed, its amount to the revenue. */
  lemma StatsSnoc(ps: seq<Payment>, p: Payment)
    ensures StatsOf(ps + [p]).total == StatsOf(ps).total + 1
    ensures StatsOf(ps + [p]).completed == StatsOf(ps).completed + (if p.paymentStatus == COMPLETED then 1 else 0)
    ensures StatsOf(ps + [p]).pending == StatsOf(ps).pending + (if p.paymentStatus == PENDING then 1 else 0)
    ensures StatsOf(ps + [p]).failed == StatsOf(ps).failed + (if p.paymentStatus == FAILED then 1 else 0)
    ensures StatsOf(ps + [p]).totalRevenue == StatsOf(ps).totalRevenue + (if p.paymentStatus == COMPLETED then p.amount else 0)
  {
    WhereSnoc(ps, p, ByStatus(COMPLETED));
    WhereSnoc(ps, p, ByStatus(PENDING));
    WhereSnoc(ps, p, ByStatus(FAILED));
    if p.paymentStatus == COMPLETED {
      SumAmountsSnoc(Where(ps, ByStatus(COMPLETED)), p);
    } else {
      assert Where(ps + [p], ByStatus(COMPLETED)) == Where(ps, ByStatus(COMPLETED));
    }
  }

  /** A successful registration adds one payment to the event's statistics:
      a completed one, whose amount is the price, adds to the revenue; a cash
      one is pending and leaves the revenue as it was. */
  lemma RegisterUpdatesEventStats(db: Db, eventId: EventId, userId: UserId, req: RegisterRequest, now: int)
    requires Register(db, eventId, userId, req, now).0.Ok?
    ensures var before := StatsOf(Where(db.payments, ByEvent(eventId)));
      var after := StatsOf(Where(Register(db, eventId, userId, req, now).1.payments, ByEvent(eventId)));
      var cash := req.paymentMethod == CASH;
      after.total == before.total + 1 &&
      after.completed == before.completed + (if cash then 0 else 1) &&
      after.pending == before.pending + (if cash then 1 else 0) &&
      after.failed == before.failed &&
      after.totalRevenue == before.totalRevenue + (if cash then 0 else db.events[eventId].price)
  {
    var r := Register(db, eventId, userId, req, now);
    var p := r.0.value;
    var mine := Where(db.payments, ByEvent(eventId));
    WhereSnoc(db.payments, p, ByEvent(eventId));
    assert Where(r.1.payments, ByEvent(eventId)) == mine + [p];
    StatsSnoc(mine, p);
  }

  // ---------------------------------------------------------------------------
  // The in-memory store and its two writing handlers
  // ---------------------------------------------------------------------------

  class PaymentStore {
    var events: map<EventId, Event>
    var payments: seq<Payment>

    function State(): Db
      reads this
    {
      Db(events, payments)
    }

    constructor (db: Db)
      ensures State() == db
    {
      events := db.events;
      payments := db.payments;
    }

    /** The register handler: checks the guards in order, returning at the first
        that fails; otherwise saves the payment and pushes the caller onto the
        event's registrants. */
    method RegisterPaidEvent(eventId: EventId, userId: UserId, req: RegisterRequest, now: int)
      returns (r: Result<Payment>)
      modifies this
      ensures (r, State()) == Register(old(State()), eventId, userId, req, now)
    {
      if eventId !in events {
        return Err(404, EventNotFound.Message());
      }
      var ev := events[eventId];
      if !ev.isPaid || ev.price == 0 {
        return Err(400, FreeEvent.Message());
      }
      if ev.startAt < now {
        return Err(400, PastEvent.Message());
      }
      if userId in ev.registeredUsers {
        return Err(400, AlreadyRegistered.Message());
      }
      if ev.maxAttendees != 0 && |ev.registeredUsers| >= ev.maxAttendees {
        return Err(400, EventFull.Message());
      }
      var existing := FindCompleted(payments, eventId, userId);
      if existing.Some? {
        return Err(400, AlreadyPaid.Message());
      }
      if !ContactComplete(req.contactInfo) {
        return Err(400, IncompleteContact.Message());
      }
      var payment := NewPayment(ev, eventId, userId, req, now);
      payments := payments + [payment];
      ev := ev.(registeredUsers := ev.registeredUsers + [userId]);
      events := events[eventId := ev];
      r := Ok(payment);
    }

    /** The update-status handler: finds the payment, checks the caller's right
        to change it, then assigns the supplied fields in place. */
    method UpdatePaymentStatus(paymentId: PaymentId, caller: Caller, req: UpdateRequest, now: int)
      returns (r: Result<Payment>)
      modifies this
      ensures (r, State()) == UpdateStatus(old(State()), paymentId, caller, req, now)
    {
      if paymentId >= |payments| {
        return Err(404, PAYMENT_NOT_FOUND);
      }
      var payment := payments[paymentId];
      if payment.eventId !in events {
        return Err(500, SERVER_ERROR);
      }
      var isOwner := payment.userId == caller.userId;
      var isOrganizer := events[payment.eventId].createdBy == caller.userId;
      var isAdmin := caller.role == ADMIN;
      if !isOwner && !isOrganizer && !isAdmin {
        return Err(403, UNAUTHORIZED);
      }
      if req.paymentStatus != "" {
        payment := payment.(paymentStatus := req.paymentStatus);
        if req.paymentStatus == COMPLETED && payment.paymentDate.None? {
          payment := payment.(paymentDate := Some(now));
        }
      }
      if req.transactionId != "" {
        payment := payment.(transactionId := req.transactionId);
      }
      payments := payments[paymentId := payment];
      r := Ok(payment);
    }
  }
}
