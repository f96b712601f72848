/** The checkout form (`CheckoutForm` in `App.tsx`): the details it collects
    and the gate its submit handler applies before handing them on. */
module Checkout {

  /** The form's fields. `pickupDate`, `shift` and `pickupTime` are the
      source's `data_agendamento`, `turno` and `horario_agendamento`. Payment
      method and shift are free strings: the radio buttons and the select
      produce them, the gate only checks that they are non-empty. */
  datatype FormData = FormData(
    name: string,
    whatsapp: string,
    address: string,
    paymentMethod: string,
    pickupDate: string,
    shift: string,
    pickupTime: string)

  /** The fixed, read-only pickup notice stored in the address field. */
  const PickupOnlyAddress: string := "Entregas, somente com retirada em loja"

  /** The state every fresh checkout form starts in. */
  function InitialForm(): (f: FormData)
    ensures f.address == PickupOnlyAddress
    ensures f.name == "" && f.whatsapp == ""
    ensures f.paymentMethod == "" && f.pickupDate == "" && f.shift == "" && f.pickupTime == ""
  {
    FormData("", "", PickupOnlyAddress, "", "", "", "")
  }

  /** What the submit handler does: block (and alert), or call `onSubmit`
      with the form data as it stands. */
  datatype GateResult = Blocked | Submitted(details: FormData)

  /** handleSubmit: the four scheduling and payment fields must be filled;
      name and WhatsApp contact are not checked by this handler. */
  function HandleSubmit(form: FormData): (r: GateResult)
    ensures r.Submitted? <==>
      form.paymentMethod != "" && form.pickupDate != "" && form.shift != "" && form.pickupTime != ""
    ensures r.Submitted? ==> r.details == form
  {
    if form.paymentMethod == "" || form.pickupDate == "" || form.shift == "" || form.pickupTime == "" then
      Blocked
    else
      Submitted(form)
  }

  /** The gate's decision does not depend on the customer's name, contact
      or address. */
  lemma GateIgnoresContact(form: FormData, name: string, whatsapp: string, address: string)
    ensures HandleSubmit(form.(name := name, whatsapp := whatsapp, address := address)).Submitted?
        == HandleSubmit(form).Submitted?
  {
  }

  /** An untouched form is always blocked. */
  lemma InitialFormBlocked()
    ensures HandleSubmit(InitialForm()) == Blocked
  {
  }
}
