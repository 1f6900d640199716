/**
 * The supplier document (Backend/model/Supplier.js): its fields, what the
 * schema checks and normalises, and `adjustOutstanding`, which moves the
 * balance owed to the supplier by an amount rounded to cents.
 */
module Supplier {
  import opened Wrappers
  import opened Text
  import opened Money

  /** The fields given to `new Supplier({...})`; a missing one is `None`. */
  datatype SupplierFields = SupplierFields(
    name: Option<string>, phone: Option<string>, email: Option<string>,
    address: Option<string>, outstandingBalance: Option<real>,
    paymentTerms: Option<string>, notes: Option<string>)

  class Supplier {
    var name: Option<string>
    var phone: Option<string>
    var email: Option<string>
    var address: string
    /** What the shop owes the supplier for purchases on credit. */
    var outstandingBalance: real
    var paymentTerms: string
    var notes: string

    /**
     * `new Supplier(fields)`: setters applied; `address` and `notes` default
     * to "", the balance to 0 and the payment terms to "Cash".
     */
    constructor (f: SupplierFields)
      ensures name == Trimmed(f.name) && phone == Trimmed(f.phone) && email == NormalEmail(f.email)
      ensures address == f.address.GetOr("") && notes == f.notes.GetOr("")
      ensures outstandingBalance == f.outstandingBalance.GetOr(0.0)
      ensures paymentTerms == f.paymentTerms.GetOr("Cash")
    {
      name := Trimmed(f.name);
      phone := Trimmed(f.phone);
      email := NormalEmail(f.email);
      address := f.address.GetOr("");
      outstandingBalance := f.outstandingBalance.GetOr(0.0);
      paymentTerms := f.paymentTerms.GetOr("Cash");
      notes := f.notes.GetOr("");
    }

    /** The only validator: a non-empty name (the phone is optional and not unique). */
    predicate Valid()
      reads this
    {
      name.Some? && name.value != ""
    }

    /**
     * `adjustOutstanding(amount)`: a positive amount (a purchase on credit)
     * raises the balance, a negative one (a payment) lowers it, rounded to
     * cents; nothing else changes, and the save succeeds exactly when the
     * document is valid.
     */
    method AdjustOutstanding(amount: real) returns (saved: bool)
      modifies this
      ensures outstandingBalance == Adjust(old(outstandingBalance), amount)
      ensures name == old(name) && phone == old(phone) && email == old(email)
      ensures address == old(address) && notes == old(notes) && paymentTerms == old(paymentTerms)
      ensures saved <==> Valid()
    {
      outstandingBalance := Adjust(outstandingBalance, amount);
      saved := Valid();
    }
  }
}
