/** The customer dialog: its schema, the prefill, the create-or-update choice
    and what a successful mutation does. E-mail well-formedness is a parameter
    predicate. */
module CustomerDialog {
  import opened Wrappers
  import opened Records

  datatype CustomerForm = CustomerForm(name: Option<string>, email: Option<string>, phone: Option<string>)

  const EmptyForm: CustomerForm := CustomerForm(None, None, None)

  datatype FormError = NameRequired | InvalidEmail | PhoneRequired

  /** `customerSchema`. */
  function Errors(f: CustomerForm, isEmail: string -> bool): (errs: set<FormError>)
    ensures NameRequired in errs <==> !(f.name.Some? && |f.name.value| >= 1)
    ensures InvalidEmail in errs <==> !(f.email.Some? && isEmail(f.email.value))
    ensures PhoneRequired in errs <==> !(f.phone.Some? && |f.phone.value| >= 1)
  {
    (if f.name.Some? && |f.name.value| >= 1 then {} else {NameRequired})
    + (if f.email.Some? && isEmail(f.email.value) then {} else {InvalidEmail})
    + (if f.phone.Some? && |f.phone.value| >= 1 then {} else {PhoneRequired})
  }

  predicate Valid(f: CustomerForm, isEmail: string -> bool) {
    Errors(f, isEmail) == {}
  }

  datatype DialogState = DialogState(form: CustomerForm, open: bool)

  /** The prefill effect: copy name, e-mail and phone, or reset without a customer. */
  function Prefill(st: DialogState, customer: Option<Customer>): (r: DialogState)
    ensures r.open == st.open
    ensures customer.None? ==> r.form == EmptyForm
    ensures customer.Some? ==>
      r.form == CustomerForm(Some(customer.value.name), Some(customer.value.email), Some(customer.value.phone))
  {
    match customer
    case None => st.(form := EmptyForm)
    case Some(c) => st.(form := CustomerForm(Some(c.name), Some(c.email), Some(c.phone)))
  }

  /** A stored customer with a name, a well-formed e-mail and a phone prefills a valid form;
      a reset form is invalid on every field. */
  lemma PrefillValidity(st: DialogState, c: Customer, isEmail: string -> bool)
    ensures c.name != "" && isEmail(c.email) && c.phone != "" ==> Valid(Prefill(st, Some(c)).form, isEmail)
    ensures Errors(Prefill(st, None).form, isEmail) == {NameRequired, InvalidEmail, PhoneRequired}
  {
  }

  datatype Mutation = Create(data: CustomerForm) | Update(id: string, data: CustomerForm)

  /** `handleSubmit(onSubmit)`: nothing for an invalid form; otherwise update the edited
      customer, or create one when there is none. The form data is sent unchanged. */
  function Submit(customer: Option<Customer>, f: CustomerForm, isEmail: string -> bool): (r: Option<Mutation>)
    ensures r.Some? <==> Valid(f, isEmail)
    ensures r.Some? ==> r.value.data == f
    ensures r.Some? ==> (r.value.Update? <==> customer.Some?)
    ensures r.Some? && r.value.Update? ==> r.value.id == customer.value.id
  {
    if !Valid(f, isEmail) then None
    else if customer.Some? then Some(Update(customer.value.id, f))
    else Some(Create(f))
  }

  /** A successful create or update closes the dialog and resets the form. */
  function MutationSucceeded(st: DialogState): (r: DialogState)
    ensures !r.open && r.form == EmptyForm
  {
    DialogState(EmptyForm, false)
  }

  /** Editing a valid customer without changing anything submits an update of exactly its fields. */
  lemma UnchangedEditResubmits(st: DialogState, c: Customer, isEmail: string -> bool)
    requires c.name != "" && isEmail(c.email) && c.phone != ""
    ensures Submit(Some(c), Prefill(st, Some(c)).form, isEmail)
         == Some(Update(c.id, CustomerForm(Some(c.name), Some(c.email), Some(c.phone))))
  {
  }
}
