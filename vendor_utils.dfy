/**
 * The named sequence counters of the vendor module
 * (Backend/controller/vendor/utils.js), and the `VEND-00001` code format the
 * vendor and receipt controllers build from a counter value.
 */
module VendorUtils {
  import opened Text

  /** The value a counter holds; one that was never created reads as 0 (`$inc` on a missing field). */
  function Current(seqs: map<string, nat>, name: string): nat {
    if name in seqs then seqs[name] else 0
  }

  /** The values `k` successive calls for `name` return, starting from the counters `seqs`. */
  function Draws(seqs: map<string, nat>, name: string, k: nat): (r: seq<nat>)
    ensures |r| == k
    ensures forall i :: 0 <= i < k ==> r[i] == Current(seqs, name) + i + 1
  {
    if k == 0 then [] else Draws(seqs, name, k - 1) + [Current(seqs, name) + k]
  }

  /** Successive calls for one name return strictly increasing, hence distinct, values; the first ever is 1. */
  lemma DrawsIncrease(seqs: map<string, nat>, name: string, k: nat)
    ensures forall i, j :: 0 <= i < j < k ==> Draws(seqs, name, k)[i] < Draws(seqs, name, k)[j]
    ensures name !in seqs && k > 0 ==> Draws(seqs, name, k)[0] == 1
  {
  }

  /** One call returns the first draw and leaves the counters from which the remaining draws follow. */
  lemma {:induction false} DrawsStep(seqs: map<string, nat>, name: string, k: nat)
    ensures var v := Current(seqs, name) + 1;
      Draws(seqs, name, k + 1) == [v] + Draws(seqs[name := v], name, k)
  {
    var v := Current(seqs, name) + 1;
    var a, b := Draws(seqs, name, k + 1), [v] + Draws(seqs[name := v], name, k);
    assert Current(seqs[name := v], name) == v;
    assert forall i :: 0 <= i < k + 1 ==> a[i] == b[i];
  }

  /** The counter collection: one `seq` per counter id. */
  class CounterStore {
    var seqs: map<string, nat>

    constructor ()
      ensures seqs == map[]
    {
      seqs := map[];
    }

    /**
     * `getNextSeq(name)`: `findByIdAndUpdate(name, { $inc: { seq: 1 } }, { new: true, upsert: true })`
     * as one step. It creates the counter on first use and returns the value after the increment;
     * no other counter changes.
     */
    method GetNextSeq(name: string) returns (v: nat)
      modifies this
      ensures v == Current(old(seqs), name) + 1
      ensures seqs == old(seqs)[name := v]
    {
      v := Current(seqs, name) + 1;
      seqs := seqs[name := v];
    }
  }

  // ---------------------------------------------------------------- vendor codes

  /** `VEND-` followed by the value zero-padded to at least five digits: `String(n).padStart(5, "0")`. */
  function VendorCode(n: nat): string {
    "VEND-" + PadStart(NatToString(n), 5, '0')
  }

  /**
   * The code keeps every digit: after the prefix come at least five digits
   * (more for values from 100000 on, none cut off) whose value is `n`.
   */
  lemma VendorCodeDigits(n: nat)
    ensures |VendorCode(n)| == 5 + (if |NatToString(n)| >= 5 then |NatToString(n)| else 5)
    ensures VendorCode(n)[..5] == "VEND-"
    ensures AllDigits(VendorCode(n)[5..]) && DigitsValue(VendorCode(n)[5..]) == n
  {
    var d := NatToString(n);
    var p := PadStart(d, 5, '0');
    assert VendorCode(n)[5..] == p;
    DigitsValueLeadingZeros(|p| - |d|, d);
    DigitsValueOfNatToString(n);
  }

  /** Distinct counter values give distinct codes. */
  lemma VendorCodeInjective(a: nat, b: nat)
    requires VendorCode(a) == VendorCode(b)
    ensures a == b
  {
    VendorCodeDigits(a);
    VendorCodeDigits(b);
  }

  /** The first code is VEND-00001. */
  lemma FirstVendorCode()
    ensures VendorCode(1) == "VEND-00001"
  {
    assert NatToString(1) == "1";
  }
}
