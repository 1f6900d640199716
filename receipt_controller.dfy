/**
 * Purchase receipts from vendors (Backend/controller/vendor/receiptController.js):
 * each receipt takes the next value of the "vendorCode" counter as its code,
 * and the list is served newest first.
 */
module ReceiptController {
  import opened Wrappers
  import opened Lists
  import opened VendorUtils

  /** The counter document's `name`. */
  const VendorCodeCounter: string := "vendorCode"

  /** The `vendor` object of the request body. */
  datatype VendorInfo = VendorInfo(name: Option<string>, contact: Option<string>, address: Option<string>)

  /** The request body; `items` and `totals` are stored as given (their JSON text here). */
  datatype ReceiptBody = ReceiptBody(vendor: Option<VendorInfo>, items: string, totals: string)

  datatype Receipt = Receipt(vendorCode: string, vendorName: Option<string>, contact: Option<string>,
                             address: Option<string>, items: string, totals: string, createdAt: int)

  datatype Response = Response(status: int, vendorCode: Option<string>, receipt: Option<Receipt>)

  /** The receipt built from the body and the code. */
  function ReceiptOf(code: string, v: VendorInfo, body: ReceiptBody, now: int): Receipt {
    Receipt(code, v.name, v.contact, v.address, body.items, body.totals, now)
  }

  function NewestFirstKey(r: Receipt): real {
    -(r.createdAt as real)
  }

  /** Descending by creation time. */
  ghost predicate NewestFirst(rs: seq<Receipt>) {
    forall i, j :: 0 <= i < j < |rs| ==> rs[i].createdAt >= rs[j].createdAt
  }

  class ReceiptStore {
    var counters: map<string, nat>
    var receipts: seq<Receipt>

    constructor ()
      ensures counters == map[] && receipts == []
    {
      counters := map[];
      receipts := [];
    }

    /**
     * `getNextVendorCode()`: `findOneAndUpdate({ name: "vendorCode" }, { $inc: { value: 1 } },
     * { new: true, upsert: true })` as one step, then the code of the new value.
     */
    method GetNextVendorCode() returns (code: string)
      modifies this
      ensures var v := Current(old(counters), VendorCodeCounter) + 1;
        counters == old(counters)[VendorCodeCounter := v] && code == VendorCode(v)
      ensures receipts == old(receipts)
    {
      var v := Current(counters, VendorCodeCounter) + 1;
      counters := counters[VendorCodeCounter := v];
      code := VendorCode(v);
    }

    /**
     * `createReceipt`: the code is drawn first, so a body without `vendor`
     * (whose `vendor.name` then throws) still uses up a code and answers 500.
     * Otherwise the receipt copies the vendor's name, contact and address and the
     * items and totals, carries the code, and is stored.
     */
    method CreateReceipt(body: ReceiptBody, now: int) returns (res: Response)
      modifies this
      ensures var v := Current(old(counters), VendorCodeCounter) + 1;
        counters == old(counters)[VendorCodeCounter := v]
      ensures body.vendor.None? ==> res == Response(500, None, None) && receipts == old(receipts)
      ensures body.vendor.Some? ==>
        var code := VendorCode(Current(old(counters), VendorCodeCounter) + 1);
        var r := ReceiptOf(code, body.vendor.value, body, now);
        res == Response(201, Some(code), Some(r)) && receipts == old(receipts) + [r]
    {
      var code := GetNextVendorCode();
      if body.vendor.None? {
        return Response(500, None, None);
      }
      var r := ReceiptOf(code, body.vendor.value, body, now);
      receipts := receipts + [r];
      res := Response(201, Some(code), Some(r));
    }

    /** `getReceipts`: every receipt, newest first. */
    function GetReceipts(): (r: seq<Receipt>)
      reads this
      ensures NewestFirst(r)
      ensures multiset(r) == multiset(receipts)
    {
      var sorted := SortBy(receipts, NewestFirstKey);
      assert forall i, j :: 0 <= i < j < |sorted| ==> NewestFirstKey(sorted[i]) <= NewestFirstKey(sorted[j]);
      sorted
    }
  }

  /** Two receipts created one after the other get different codes, the later one from the next counter value. */
  lemma SuccessiveCodesDiffer(counters: map<string, nat>)
    ensures var v := Current(counters, VendorCodeCounter) + 1;
      var w := Current(counters[VendorCodeCounter := v], VendorCodeCounter) + 1;
      w == v + 1 && VendorCode(v) != VendorCode(w)
  {
    var v := Current(counters, VendorCodeCounter) + 1;
    if VendorCode(v) == VendorCode(v + 1) {
      VendorCodeInjective(v, v + 1);
    }
  }
}
