/**
 * The customer document (Backend/model/Customer.js): its fields, what the
 * schema checks and normalises, and `adjustCredit`, which moves the credit
 * balance by an amount rounded to cents.
 */
module Customer {
  import opened Wrappers
  import opened Text
  import opened Money

  /** The fields given to `new Customer({...})`; a missing one is `None`. */
  datatype CustomerFields = CustomerFields(
    name: Option<string>, phone: Option<string>, email: Option<string>,
    address: Option<string>, creditBalance: Option<real>, notes: Option<string>)

  class Customer {
    var name: Option<string>
    var phone: Option<string>
    var email: Option<string>
    var address: string
    /** Positive: the customer owes the shop; negative: the shop owes the customer. */
    var creditBalance: real
    var notes: string

    /** `new Customer(fields)`: setters applied, `address` and `notes` default to "", the balance to 0. */
    constructor (f: CustomerFields)
      ensures name == Trimmed(f.name) && phone == Trimmed(f.phone) && email == NormalEmail(f.email)
      ensures address == f.address.GetOr("") && notes == f.notes.GetOr("")
      ensures creditBalance == f.creditBalance.GetOr(0.0)
    {
      name := Trimmed(f.name);
      phone := Trimmed(f.phone);
      email := NormalEmail(f.email);
      address := f.address.GetOr("");
      creditBalance := f.creditBalance.GetOr(0.0);
      notes := f.notes.GetOr("");
    }

    /** The `required` validators: a non-empty name and phone. */
    predicate Valid()
      reads this
    {
      name.Some? && name.value != "" && phone.Some? && phone.value != ""
    }

    /**
     * `adjustCredit(amount)`: the balance becomes `balance + amount` rounded
     * to cents, nothing else changes, and the save succeeds when the document
     * is valid and no other customer (whose phones are `otherPhones`) has its
     * phone, as the unique index demands.
     */
    method AdjustCredit(amount: real, otherPhones: set<string>) returns (saved: bool)
      modifies this
      ensures creditBalance == Adjust(old(creditBalance), amount)
      ensures name == old(name) && phone == old(phone) && email == old(email)
      ensures address == old(address) && notes == old(notes)
      ensures saved <==> Valid() && phone.value !in otherPhones
    {
      creditBalance := Adjust(creditBalance, amount);
      saved := Valid() && phone.value !in otherPhones;
    }
  }

  /** The stored email is in lower case and has no surrounding whitespace; normalising it again changes nothing. */
  lemma EmailNormalised(s: string)
    ensures var e := Lower(Trim(s));
      forall i :: 0 <= i < |e| ==> !('A' <= e[i] <= 'Z')
    ensures NormalEmail(NormalEmail(Some(s))) == NormalEmail(Some(s))
  {
    EmailLowerCase(s);
    EmailIdempotent(s);
  }

  lemma EmailLowerCase(s: string)
    ensures var e := Lower(Trim(s));
      forall i :: 0 <= i < |e| ==> !('A' <= e[i] <= 'Z')
  {
    LowerHasNoCapitals(Trim(s));
  }

  lemma EmailIdempotent(s: string)
    ensures NormalEmail(NormalEmail(Some(s))) == NormalEmail(Some(s))
  {
    var t := Trim(s);
    var e := Lower(t);
    TrimIdempotent(s);
    LowerKeepsTrimmed(t);
    LowerIdempotent(t);
    NormalEmailOfNormal(e);
  }
}
