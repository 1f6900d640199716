/**
 * The vendor endpoints (Backend/controller/vendor/vendorController.js): a
 * vendor gets the code of the next value of the "vendor" counter, and the
 * quick list shows the hundred newest vendors.
 */
module VendorController {
  import opened Wrappers
  import opened Lists
  import opened VendorUtils

  /** The counter id `createVendor` draws from. */
  const VendorCounter: string := "vendor"

  /** The most vendors `listVendors` returns. */
  const ListLimit: nat := 100

  /** The fields of the request body. */
  datatype VendorBody = VendorBody(name: Option<string>, contactNumber: Option<string>, address: Option<string>)

  datatype Vendor = Vendor(vendorCode: string, name: string, contactNumber: Option<string>,
                           address: Option<string>, createdAt: int)

  datatype Response = Response(status: int, vendor: Option<Vendor>)

  /** A missing or empty name is falsy. */
  predicate HasName(body: VendorBody) {
    body.name.Some? && body.name.value != ""
  }

  function NewestFirstKey(v: Vendor): real {
    -(v.createdAt as real)
  }

  class VendorStore {
    /** The counter collection the vendor module shares. */
    const counters: CounterStore
    var vendors: seq<Vendor>

    constructor ()
      ensures fresh(counters) && counters.seqs == map[] && vendors == []
    {
      counters := new CounterStore();
      vendors := [];
    }

    /**
     * `createVendor`: a falsy name is a 400 before any counter is touched;
     * otherwise the vendor is stored with code `VEND-` and the next "vendor"
     * value padded to five digits.
     */
    method CreateVendor(body: VendorBody, now: int) returns (res: Response)
      modifies this, counters
      ensures !HasName(body) ==>
        res == Response(400, None) && vendors == old(vendors) && counters.seqs == old(counters.seqs)
      ensures HasName(body) ==>
        var v := Current(old(counters.seqs), VendorCounter) + 1;
        var vendor := Vendor(VendorCode(v), body.name.value, body.contactNumber, body.address, now);
        && counters.seqs == old(counters.seqs)[VendorCounter := v]
        && res == Response(201, Some(vendor))
        && vendors == old(vendors) + [vendor]
    {
      if !HasName(body) {
        return Response(400, None);
      }
      var n := counters.GetNextSeq(VendorCounter);
      var vendor := Vendor(VendorCode(n), body.name.value, body.contactNumber, body.address, now);
      vendors := vendors + [vendor];
      res := Response(201, Some(vendor));
    }

    /** `listVendors`: the vendors sorted newest first, cut to the first hundred. */
    function ListVendors(): (r: seq<Vendor>)
      reads this
      ensures |r| == if |vendors| <= ListLimit then |vendors| else ListLimit
      ensures forall i, j :: 0 <= i < j < |r| ==> r[i].createdAt >= r[j].createdAt
      ensures multiset(r) <= multiset(vendors)
      ensures forall x, y :: x in vendors && x !in r && y in r ==> x.createdAt <= y.createdAt
    {
      NewestKept(vendors);
      Take(SortBy(vendors, NewestFirstKey), ListLimit)
    }
  }

  /** The hundred vendors listed are in order and no vendor left out is newer than one listed. */
  lemma NewestKept(vendors: seq<Vendor>)
    ensures var r := Take(SortBy(vendors, NewestFirstKey), ListLimit);
      && (forall i, j :: 0 <= i < j < |r| ==> r[i].createdAt >= r[j].createdAt)
      && multiset(r) <= multiset(vendors)
      && forall x, y :: x in vendors && x !in r && y in r ==> x.createdAt <= y.createdAt
  {
    var sorted := SortBy(vendors, NewestFirstKey);
    var r := Take(sorted, ListLimit);
    SmallestFirst(vendors, NewestFirstKey, ListLimit);
    assert forall i, j :: 0 <= i < j < |r| ==> NewestFirstKey(r[i]) <= NewestFirstKey(r[j]);
    forall x, y | x in vendors && x !in r && y in r ensures x.createdAt <= y.createdAt {
      assert multiset(vendors) == multiset(r) + multiset(sorted[|r|..]);
      assert x in multiset(vendors);
      assert x in sorted[|r|..];
      assert NewestFirstKey(y) <= NewestFirstKey(x);
    }
  }

  /** The codes of vendors created one after another differ, since the counter only goes up. */
  lemma SuccessiveVendorCodesDiffer(seqs: map<string, nat>)
    ensures var v := Current(seqs, VendorCounter) + 1;
      VendorCode(v) != VendorCode(Current(seqs[VendorCounter := v], VendorCounter) + 1)
  {
    var v := Current(seqs, VendorCounter) + 1;
    if VendorCode(v) == VendorCode(v + 1) {
      VendorCodeInjective(v, v + 1);
    }
  }
}
