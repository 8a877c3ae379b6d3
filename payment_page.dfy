/** The payment form of the frontend: which inputs block submission and in
    what order, the request body it sends to the register handler, how the
    reply is classified, and the `loading`/`success` flags the handler flips.
    The server's reply is a parameter: the request itself is not modelled. */
module PaymentPage {
  import opened Optional
  import PaymentRoutes

  type ContactInfo = PaymentRoutes.ContactInfo

  const CONTACT_ALERT: string := "Please fill all contact information"
  const TRANSACTION_ALERT: string := "Please enter transaction ID for digital payments"
  const NETWORK_ALERT: string := "Network error. Please try again."
  const FALLBACK_ALERT: string := "Payment failed"

  /** The four contact inputs of the form. */
  datatype Field = FullName | Email | Phone | Address

  function Get(ci: ContactInfo, f: Field): string
  {
    match f
    case FullName => ci.fullName
    case Email => ci.email
    case Phone => ci.phone
    case Address => ci.address
  }

  /** `setContactInfo({...contactInfo, [f]: v})`: one input's change handler. */
  function Set(ci: ContactInfo, f: Field, v: string): (r: ContactInfo)
    ensures Get(r, f) == v
    ensures forall g :: g != f ==> Get(r, g) == Get(ci, g)
  {
    match f
    case FullName => ci.(fullName := v)
    case Email => ci.(email := v)
    case Phone => ci.(phone := v)
    case Address => ci.(address := v)
  }

  /** The form's inputs; an untouched text input is "". */
  datatype Form = Form(contactInfo: ContactInfo, paymentMethod: string, transactionId: string)

  const INITIAL_FORM: Form := Form(PaymentRoutes.ContactInfo("", "", "", ""), PaymentRoutes.DEFAULT_METHOD, "")

  /** Either the alert that stops submission, or the body that is posted. */
  datatype Submission = Blocked(alert: string) | Send(body: PaymentRoutes.RegisterRequest)

  /** The checks of `handlePayment` before the request: contact details first,
      then the transaction id of a digital payment. An empty transaction id
      is sent as absent, which the body represents as "". */
  function Validate(form: Form): (r: Submission)
    ensures r.Send? ==> forall f :: Get(form.contactInfo, f) != ""
    ensures r.Send? ==> form.paymentMethod == PaymentRoutes.CASH || form.transactionId != ""
    ensures r.Send? ==> r.body == PaymentRoutes.RegisterRequest(form.paymentMethod, Some(form.contactInfo), form.transactionId)
    ensures r.Blocked? ==> r.alert in {CONTACT_ALERT, TRANSACTION_ALERT}
    ensures r == Blocked(TRANSACTION_ALERT) ==> form.paymentMethod != PaymentRoutes.CASH && form.transactionId == ""
  {
    var ci := form.contactInfo;
    if ci.fullName == "" || ci.email == "" || ci.phone == "" || ci.address == "" then
      Blocked(CONTACT_ALERT)
    else if form.paymentMethod != PaymentRoutes.CASH && form.transactionId == "" then
      Blocked(TRANSACTION_ALERT)
    else
      Send(PaymentRoutes.RegisterRequest(form.paymentMethod, Some(form.contactInfo), form.transactionId))
  }

  /** An empty contact input blocks submission with the contact alert,
      whatever the payment method and transaction id. */
  lemma EmptyFieldBlocks(form: Form, f: Field)
    requires Get(form.contactInfo, f) == ""
    ensures Validate(form) == Blocked(CONTACT_ALERT)
  {
  }

  /** With every contact input filled, only a digital payment without a
      transaction id is blocked; a cash payment never needs one. */
  lemma FilledFormBlockedOnlyForMissingTransaction(form: Form)
    requires forall f :: Get(form.contactInfo, f) != ""
    ensures Validate(form).Blocked? <==> form.paymentMethod != PaymentRoutes.CASH && form.transactionId == ""
    ensures Validate(form).Blocked? ==> Validate(form).alert == TRANSACTION_ALERT
  {
    assert Get(form.contactInfo, FullName) != "" && Get(form.contactInfo, Email) != "";
    assert Get(form.contactInfo, Phone) != "" && Get(form.contactInfo, Address) != "";
  }

  /** A body the form sends always passes the backend's contact check (the
      form is stricter: it also asks for the address), and a digital payment
      always carries the user's own transaction id, so the backend never
      generates one for it. */
  lemma SentBodyPassesBackendChecks(form: Form)
    requires Validate(form).Send?
    ensures PaymentRoutes.ContactComplete(Validate(form).body.contactInfo)
    ensures Validate(form).body.paymentMethod != PaymentRoutes.CASH ==> Validate(form).body.transactionId != ""
  {
  }

  /** What the user is shown for a reply. */
  datatype Outcome = Succeeded | Failed(alert: string)

  /** A reply with a `msg` is a success; otherwise its `error` is shown,
      or "Payment failed" when it has none. */
  function Classify(reply: PaymentRoutes.Reply): (o: Outcome)
    ensures o.Succeeded? <==> reply.msg != ""
    ensures o.Failed? ==> o.alert != ""
    ensures o.Failed? && reply.error != "" ==> o.alert == reply.error
    ensures o.Failed? && reply.error == "" ==> o.alert == FALLBACK_ALERT
  {
    if reply.msg != "" then Succeeded
    else if reply.error != "" then Failed(reply.error)
    else Failed(FALLBACK_ALERT)
  }

  /** The form's verdict on the register handler's reply agrees with the
      handler: success exactly when it registered, otherwise the handler's
      own error text. */
  lemma ClassifyRegisterReply(r: PaymentRoutes.Result<PaymentRoutes.Payment>)
    requires r.Err? ==> r.error != ""
    ensures Classify(PaymentRoutes.RegisterReply(r)).Succeeded? <==> r.Ok?
    ensures r.Err? ==> Classify(PaymentRoutes.RegisterReply(r)) == Failed(r.error)
  {
  }

  /** Every error the register handler reports has a non-empty text, so the
      form shows that text rather than its fallback. */
  lemma RegisterErrorsAreShown(db: PaymentRoutes.Db, eventId: PaymentRoutes.EventId, userId: PaymentRoutes.UserId,
                               req: PaymentRoutes.RegisterRequest, now: int)
    ensures var r := PaymentRoutes.Register(db, eventId, userId, req, now).0;
      (Classify(PaymentRoutes.RegisterReply(r)).Succeeded? <==> r.Ok?) &&
      (r.Err? ==> Classify(PaymentRoutes.RegisterReply(r)) == Failed(r.error))
  {
  }

  /** The page's state: the inputs and the two flags that drive the button. */
  class PaymentPageState {
    var form: Form
    var loading: bool
    var success: bool

    constructor ()
      ensures form == INITIAL_FORM && !loading && !success
    {
      form := INITIAL_FORM;
      loading := false;
      success := false;
    }

    /** The change handler of one contact input. */
    method ChangeContact(f: Field, v: string)
      modifies this
      ensures form == old(form).(contactInfo := Set(old(form).contactInfo, f, v))
      ensures loading == old(loading) && success == old(success)
    {
      form := form.(contactInfo := Set(form.contactInfo, f, v));
    }

    method ChangePaymentMethod(m: string)
      modifies this
      ensures form == old(form).(paymentMethod := m)
      ensures loading == old(loading) && success == old(success)
    {
      form := form.(paymentMethod := m);
    }

    method ChangeTransactionId(t: string)
      modifies this
      ensures form == old(form).(transactionId := t)
      ensures loading == old(loading) && success == old(success)
    {
      form := form.(transactionId := t);
    }

    /** `handlePayment`: validates, then posts the body and reacts to the
        reply (`None` stands for a network failure). Returns the body that was
        sent, if any, and the alert shown, if any. */
    method HandlePayment(reply: Option<PaymentRoutes.Reply>)
      returns (sent: Option<PaymentRoutes.RegisterRequest>, alert: Option<string>)
      modifies this
      ensures form == old(form)
      ensures Validate(old(form)).Blocked? ==>
        sent.None? && alert == Some(Validate(old(form)).alert) &&
        loading == old(loading) && success == old(success)
      ensures Validate(old(form)).Send? ==> sent == Some(Validate(old(form)).body) && !loading
      ensures Validate(old(form)).Send? && reply.None? ==> alert == Some(NETWORK_ALERT) && success == old(success)
      ensures Validate(old(form)).Send? && reply.Some? ==>
        match Classify(reply.value)
        case Succeeded => success && alert.None?
        case Failed(a) => alert == Some(a) && success == old(success)
    {
      var v := Validate(form);
      if v.Blocked? {
        return None, Some(v.alert);
      }
      loading := true;
      sent := Some(v.body);
      if reply.None? {
        alert := Some(NETWORK_ALERT);
      } else {
        var outcome := Classify(reply.value);
        if outcome.Succeeded? {
          success := true;
          alert := None;
        } else {
          alert := Some(outcome.alert);
        }
      }
      loading := false;
    }
  }
}
