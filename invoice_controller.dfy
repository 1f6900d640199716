/**
 * The invoice endpoints (Backend/controller/Invoice.js) over the invoice
 * collection, a map from document id to saved invoice: numbering, creation,
 * listing and lookup by id.
 */
module InvoiceController {
  import opened Wrappers
  import opened Text
  import opened Lists
  import opened InvoiceSchema

  /** An HTTP status with the invoice sent back under `data`, if any. */
  datatype Response = Response(status: int, data: Option<Invoice>)

  /**
   * The integer the controller reads out of an invoice number:
   * `parseInt(number.split("-")[1])`, `None` for `NaN`.
   */
  function InvoiceSeq(number: string): Option<int> {
    match Piece(number, '-', 1)
    case None => None
    case Some(p) => ParseInt(p)
  }

  /** `INV-<k>` reads back as `k`. */
  lemma InvoiceSeqOfNumber(k: nat)
    ensures InvoiceSeq("INV-" + NatToString(k)) == Some(k)
  {
    var d := NatToString(k);
    assert '-' !in d by { assert forall i :: 0 <= i < |d| ==> IsDigit(d[i]); }
    assert "INV-" + d == "INV" + ['-'] + d;
    SplitAfterFirst("INV", '-', d);
    assert Split(d, '-') == [d];
    ParseIntOfNatToString(k);
  }

  /**
   * The number `generateInvoiceNumber` derives from the greatest stored number
   * `last`: "INV-1001" when there is none, otherwise `INV-` followed by the
   * integer after its first '-' plus one (`INV-NaN` when there is no such integer).
   */
  function NumberAfter(last: Option<string>): string {
    match last
    case None => "INV-1001"
    case Some(s) =>
      match InvoiceSeq(s)
      case None => "INV-NaN"
      case Some(n) => "INV-" + IntToString(n + 1)
  }

  /** From `INV-<k>` the numbering goes on with `INV-<k+1>`. */
  lemma NumberAfterSuccessor(k: nat)
    ensures NumberAfter(Some("INV-" + NatToString(k))) == "INV-" + NatToString(k + 1)
  {
    InvoiceSeqOfNumber(k);
  }

  /** `s` is the number `findOne().sort({ invoice_number: -1 })` finds: stored, and greatest as a string. */
  ghost predicate IsLastNumber(invoices: map<string, Invoice>, s: string) {
    && (exists id :: id in invoices && invoices[id].number == s)
    && (forall id :: id in invoices ==> LexLe(invoices[id].number, s))
  }

  /** `save` under `id`, which fails when the unique index on `invoice_number` already holds the number. */
  function SaveUnique(invoices: map<string, Invoice>, id: string, inv: Invoice): (r: Option<map<string, Invoice>>)
    ensures r.None? <==> exists k :: k in invoices && invoices[k].number == inv.number
    ensures r.Some? ==> r.value == invoices[id := inv]
  {
    if exists k :: k in invoices && invoices[k].number == inv.number then None
    else Some(invoices[id := inv])
  }

  /** An invoice whose number no stored invoice has is inserted under its id. */
  lemma FreshNumberSaves(invoices: map<string, Invoice>, id: string, inv: Invoice)
    requires forall k :: k in invoices ==> invoices[k].number != inv.number
    ensures SaveUnique(invoices, id, inv) == Some(invoices[id := inv])
  {
  }

  /**
   * As written, the numbering collides: once INV-9999 and INV-10000 are both
   * stored, the string "INV-9999" is the greatest, so the next number is
   * INV-10000 again and its save fails on the unique index. The store is then
   * unchanged, so every later invoice fails the same way.
   */
  lemma LexicographicNumberingRepeats(invoices: map<string, Invoice>, last: string, id: string, inv: Invoice)
    requires forall k :: k in invoices ==> invoices[k].number in {"INV-9999", "INV-10000"}
    requires exists k :: k in invoices && invoices[k].number == "INV-9999"
    requires exists k :: k in invoices && invoices[k].number == "INV-10000"
    requires IsLastNumber(invoices, last)
    requires inv.number == NumberAfter(Some(last))
    ensures last == "INV-9999"
    ensures NumberAfter(Some(last)) == "INV-10000"
    ensures SaveUnique(invoices, id, inv) == None
  {
    var j :| j in invoices && invoices[j].number == last;
    var a :| a in invoices && invoices[a].number == "INV-9999";
    assert LexLe("INV-9999", last);
    NinesAboveTenThousand();
    NumberAfterNines();
  }

  /** As strings, "INV-10000" sorts below "INV-9999". */
  lemma NinesAboveTenThousand()
    ensures LexLe("INV-10000", "INV-9999") && !LexLe("INV-9999", "INV-10000")
  {
    assert "INV-10000"[4..] == "10000" && "INV-9999"[4..] == "9999";
    assert LexLe("10000", "9999") && !LexLe("9999", "10000");
  }

  lemma NumberAfterNines()
    ensures NumberAfter(Some("INV-9999")) == "INV-10000"
  {
    NinesNumber();
    TenThousandNumber();
    NumberAfterSuccessor(9999);
  }

  lemma NinesNumber()
    ensures "INV-" + NatToString(9999) == "INV-9999"
  {
    Digits9999();
  }

  lemma TenThousandNumber()
    ensures "INV-" + NatToString(10000) == "INV-10000"
  {
    Digits10000();
  }

  lemma Digits9999()
    ensures NatToString(9999) == "9999"
  {
    assert NatToString(9) == "9";
    assert NatToString(99) == "99";
    assert NatToString(999) == "999";
  }

  lemma Digits10000()
    ensures NatToString(10000) == "10000"
  {
    assert NatToString(1) == "1";
    assert NatToString(10) == "10";
    assert NatToString(100) == "100";
    assert NatToString(1000) == "1000";
  }

  lemma FirstNumber()
    ensures "INV-" + NatToString(1001) == "INV-1001"
  {
    Digits1001();
  }

  lemma Digits1001()
    ensures NatToString(1001) == "1001"
  {
    assert NatToString(1) == "1";
    assert NatToString(10) == "10";
    assert NatToString(100) == "100";
  }

  /** A number one above every stored sequence value belongs to no stored invoice. */
  lemma AboveHighestIsFresh(invoices: map<string, Invoice>, m: nat, r: string)
    requires forall id :: id in invoices && InvoiceSeq(invoices[id].number).Some? ==>
      InvoiceSeq(invoices[id].number).value <= m
    requires r == "INV-" + NatToString(m + 1)
    ensures InvoiceSeq(r) == Some(m + 1)
    ensures forall id :: id in invoices ==> invoices[id].number != r
  {
    InvoiceSeqOfNumber(m + 1);
    forall id | id in invoices ensures invoices[id].number != r {
      var n := invoices[id].number;
      if InvoiceSeq(n).Some? {
        assert InvoiceSeq(n).value <= m;
      }
    }
  }

  /** The invoice collection. */
  class InvoiceStore {
    var invoices: map<string, Invoice>

    constructor ()
      ensures invoices == map[]
    {
      invoices := map[];
    }

    /** `Invoice.findOne().sort({ invoice_number: -1 })`: the greatest stored number, compared as strings. */
    method LastInvoiceNumber() returns (last: Option<string>)
      ensures last.None? <==> invoices == map[]
      ensures last.Some? ==> IsLastNumber(invoices, last.value)
    {
      var todo := invoices.Keys;
      last := None;
      while todo != {}
        invariant todo <= invoices.Keys
        invariant last.None? <==> todo == invoices.Keys
        invariant last.Some? ==> exists id :: id in invoices && id !in todo && invoices[id].number == last.value
        invariant last.Some? ==> forall id :: id in invoices && id !in todo ==> LexLe(invoices[id].number, last.value)
        decreases |todo|
      {
        var id :| id in todo;
        var n := invoices[id].number;
        if last.None? {
          last := Some(n);
          LexLeReflexive(n);
        } else if LexLe(last.value, n) {
          forall j | j in invoices && j !in todo ensures LexLe(invoices[j].number, n) {
            LexLeTransitive(invoices[j].number, last.value, n);
          }
          LexLeReflexive(n);
          last := Some(n);
        } else {
          LexLeTotal(last.value, n);
        }
        todo := todo - {id};
      }
      assert invoices.Keys == {} ==> invoices == map[];
    }

    /** `generateInvoiceNumber()` as written: the successor of the lexicographically greatest number. */
    method GenerateInvoiceNumber() returns (r: string)
      ensures invoices == map[] ==> r == "INV-1001"
      ensures invoices != map[] ==> exists s :: IsLastNumber(invoices, s) && r == NumberAfter(Some(s))
    {
      var last := LastInvoiceNumber();
      r := NumberAfter(last);
    }

    /**
     * The largest integer any stored number carries after its first '-', and at
     * least 1000 (so that an empty collection starts at INV-1001).
     */
    method HighestSequence() returns (m: nat)
      ensures m >= 1000
      ensures forall id :: id in invoices && InvoiceSeq(invoices[id].number).Some? ==>
        InvoiceSeq(invoices[id].number).value <= m
      ensures m == 1000 || exists id :: id in invoices && InvoiceSeq(invoices[id].number) == Some(m)
    {
      var todo := invoices.Keys;
      m := 1000;
      ghost var holder := "";  // an invoice whose number carries `m`, once `m` is above 1000
      while todo != {}
        invariant todo <= invoices.Keys && m >= 1000
        invariant forall id :: id in invoices && id !in todo && InvoiceSeq(invoices[id].number).Some? ==>
          InvoiceSeq(invoices[id].number).value <= m
        invariant m == 1000 || (holder in invoices && InvoiceSeq(invoices[holder].number) == Some(m))
        decreases |todo|
      {
        var id :| id in todo;
        var n := InvoiceSeq(invoices[id].number);
        if n.Some? && n.value > m {
          m := n.value;
          holder := id;
        }
        todo := todo - {id};
      }
    }

    /**
     * The invoice number as evidently intended: one more than the highest
     * number in use, compared as integers. It is never a stored number.
     */
    method NextInvoiceNumber() returns (r: string)
      ensures forall id :: id in invoices ==> invoices[id].number != r
      ensures invoices == map[] ==> r == "INV-1001"
      ensures exists k: nat :: k >= 1001 && r == "INV-" + NatToString(k) && InvoiceSeq(r) == Some(k)
      ensures forall id :: id in invoices && InvoiceSeq(invoices[id].number).Some? ==>
        InvoiceSeq(invoices[id].number).value < InvoiceSeq(r).value
    {
      var m := HighestSequence();
      r := "INV-" + NatToString(m + 1);
      AboveHighestIsFresh(invoices, m, r);
      if invoices == map[] {
        assert m + 1 == 1001;
        FirstNumber();
      }
      assert m + 1 >= 1001 && r == "INV-" + NatToString(m + 1) && InvoiceSeq(r) == Some(m + 1);
    }

    /**
     * `createInvoice`: the number is always generated here (an `invoice_number`
     * in the body is overwritten), the document is validated, the pre-save hook
     * derives its totals and it is inserted under the fresh id `id`. Any failure
     * is a 500 and leaves the collection as it was.
     */
    method CreateInvoice(body: InvoiceInput, id: string, now: int, random: real) returns (res: Response)
      requires id !in invoices
      modifies this
      ensures res.status == 201 <==> InputValid(body)
      ensures res.status == 500 ==> res.data == None && invoices == old(invoices)
      ensures res.status == 201 ==>
        && res.data.Some?
        && (forall k :: k in old(invoices) ==> old(invoices)[k].number != res.data.value.number)
        && Validate(body.(number := res.data.value.number), now).Some?
        && res.data.value == Hook(Validate(body.(number := res.data.value.number), now).value, now, random)
        && invoices == old(invoices)[id := res.data.value]
    {
      var number := NextInvoiceNumber();
      var input := body.(number := number);
      match Validate(input, now)
      case None =>
        res := Response(500, None);
      case Some(inv) =>
        var doc := new InvoiceDoc(inv);
        doc.PreSave(now, random);
        var saved := doc.Record();
        assert saved.number == number;
        FreshNumberSaves(invoices, id, saved);
        match SaveUnique(invoices, id, saved)
        case None =>
          res := Response(500, None);
        case Some(m) =>
          invoices := m;
          res := Response(201, Some(saved));
    }

    /** `getAllInvoices`: every stored invoice with its id, each once. */
    method GetAllInvoices() returns (r: seq<(string, Invoice)>)
      ensures |r| == |invoices|
      ensures forall i, j :: 0 <= i < j < |r| ==> r[i].0 != r[j].0
      ensures forall p :: p in r <==> p.0 in invoices && invoices[p.0] == p.1
    {
      var todo := invoices.Keys;
      r := [];
      while todo != {}
        invariant todo <= invoices.Keys
        invariant |r| + |todo| == |invoices|
        invariant forall i, j :: 0 <= i < j < |r| ==> r[i].0 != r[j].0
        invariant forall p :: p in r <==> p.0 in invoices && p.0 !in todo && invoices[p.0] == p.1
        decreases |todo|
      {
        var id :| id in todo;
        r := r + [(id, invoices[id])];
        todo := todo - {id};
      }
    }

    /** `getInvoiceById`: the stored invoice with 200, or 404 when no invoice has that id. */
    function GetInvoiceById(id: string): (res: Response)
      reads this
      ensures res.status == 404 <==> id !in invoices
      ensures res.status == 200 <==> id in invoices
      ensures res.data.Some? <==> id in invoices
      ensures id in invoices ==> res.data == Some(invoices[id])
    {
      if id in invoices then Response(200, Some(invoices[id])) else Response(404, None)
    }
  }
}
