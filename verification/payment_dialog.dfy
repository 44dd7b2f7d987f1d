/** The payment dialog: three handlers that submit the cart and total with a
    fixed payment method, the cash sufficiency guard and change, and the cash
    button's enable rule. The order request itself is a parameter: whether
    it resolves (`created`) or throws. */
module PaymentDialog {
  import opened Wrappers
  import opened PosStore

  /** The cash input: empty, or a number as typed. */
  datatype CashField = Blank | Entered(amount: real)

  /** The dialog's own state. */
  datatype DialogState = DialogState(cash: CashField, processing: bool)

  /** The body handed to `createOrder`. */
  datatype Submission = Submission(cart: Cart, total: real, paymentMethod: string)

  /** The toast a handler shows. `CashPaid` carries the change, which is not a
      number (`None`) when the input was blank. */
  datatype Toast = InsufficientAmount | CashPaid(change: Option<real>) | CardPaid | DigitalPaid | PaymentFailed

  /** What one handler run did. */
  datatype Handled = Handled(
    submitted: Option<Submission>,
    toast: Toast,
    successCalled: bool,
    state: DialogState)

  /** `Number.parseFloat(cashReceived)`; a blank field parses to NaN (`None`). */
  function Received(f: CashField): Option<real> {
    match f
    case Blank => None
    case Entered(a) => Some(a)
  }

  /** The shared body of the three handlers after their guard: set `processing`,
      submit, toast, call `onSuccess` on resolution only, and clear `processing`
      in `finally`. */
  function Submit(st: DialogState, s: Submission, created: bool, paid: Toast): (h: Handled)
    ensures h.submitted == Some(s)
    ensures h.successCalled <==> created
    ensures h.toast == (if created then paid else PaymentFailed)
    ensures !h.state.processing && h.state.cash == st.cash
  {
    Handled(Some(s), if created then paid else PaymentFailed, created, st.(processing := false))
  }

  /** `handleCashPayment`: refuse an amount below the total, otherwise submit as "cash",
      report the change and clear the input on success. */
  function HandleCash(st: DialogState, cart: Cart, total: real, created: bool): (h: Handled)
    ensures h.toast == InsufficientAmount <==> st.cash.Entered? && st.cash.amount < total
    ensures h.toast == InsufficientAmount ==> h.submitted == None && !h.successCalled && h.state == st
    ensures h.toast != InsufficientAmount ==>
      h.submitted == Some(Submission(cart, total, "cash")) && !h.state.processing
    ensures h.successCalled <==> h.submitted.Some? && created
    ensures h.successCalled && st.cash.Entered? ==>
      h.toast == CashPaid(Some(st.cash.amount - total)) && st.cash.amount - total >= 0.0
    ensures h.successCalled ==> h.state.cash == Blank
    ensures h.submitted.Some? && !created ==> h.toast == PaymentFailed && h.state.cash == st.cash
  {
    var received := Received(st.cash);
    if received.Some? && received.value < total then
      Handled(None, InsufficientAmount, false, st)
    else
      var change := if received.Some? then Some(received.value - total) else None;
      var h := Submit(st, Submission(cart, total, "cash"), created, CashPaid(change));
      if created then h.(state := h.state.(cash := Blank)) else h
  }

  /** `handleCardPayment`: submit as "card". */
  function HandleCard(st: DialogState, cart: Cart, total: real, created: bool): (h: Handled)
    ensures h.submitted == Some(Submission(cart, total, "card"))
    ensures h.successCalled <==> created
    ensures h.toast == (if created then CardPaid else PaymentFailed)
    ensures !h.state.processing && h.state.cash == st.cash
  {
    Submit(st, Submission(cart, total, "card"), created, CardPaid)
  }

  /** `handleDigitalPayment`: submit as "digital". */
  function HandleDigital(st: DialogState, cart: Cart, total: real, created: bool): (h: Handled)
    ensures h.submitted == Some(Submission(cart, total, "digital"))
    ensures h.successCalled <==> created
    ensures h.toast == (if created then DigitalPaid else PaymentFailed)
    ensures !h.state.processing && h.state.cash == st.cash
  {
    Submit(st, Submission(cart, total, "digital"), created, DigitalPaid)
  }

  /** The cash button is disabled when the input is blank, the amount is below the
      total, or a payment is in progress. */
  function CashButtonDisabled(st: DialogState, total: real): (r: bool)
    ensures !r <==> st.cash.Entered? && st.cash.amount >= total && !st.processing
  {
    st.cash.Blank? || st.cash.amount < total || st.processing
  }

  /** The green change preview: shown iff the input is filled in and covers the total. */
  function ChangePreview(cash: CashField, total: real): (r: Option<real>)
    ensures r.Some? <==> cash.Entered? && cash.amount >= total
    ensures r.Some? ==> r.value >= 0.0 && r.value + total == cash.amount
  {
    if cash.Entered? && cash.amount >= total then Some(cash.amount - total) else None
  }

  /** Whenever the cash button can be pressed, the guard passes, the order is submitted
      as "cash", and a successful payment reports exactly the change the preview showed. */
  lemma EnabledCashButtonSubmits(st: DialogState, cart: Cart, total: real, created: bool)
    requires !CashButtonDisabled(st, total)
    ensures var h := HandleCash(st, cart, total, created);
      && h.submitted == Some(Submission(cart, total, "cash"))
      && ChangePreview(st.cash, total).Some?
      && (created ==> h.toast == CashPaid(ChangePreview(st.cash, total)))
  {
  }

  /** A blank input cannot be submitted through the button, though the handler itself,
      as written, lets a blank (NaN) amount through its `received < total` guard. */
  lemma BlankCashPassesGuard(st: DialogState, cart: Cart, total: real)
    requires st.cash == Blank
    ensures CashButtonDisabled(st, total)
    ensures HandleCash(st, cart, total, true).toast == CashPaid(None)
  {
  }
}
