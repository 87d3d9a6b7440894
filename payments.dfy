/**
 * The payments table: an append-only sequence of payments whose receipt
 * numbers the database keeps unique.
 */
module Payments {
  import opened Wrappers
  import opened Records

  /** The receipt numbers already used in a table. */
  function Receipts(rows: seq<Payment>): set<string> {
    set i | 0 <= i < |rows| :: rows[i].receipt
  }

  /** The unique constraint on `receipt_number`. */
  ghost predicate UniqueReceipts(rows: seq<Payment>) {
    forall i, j :: 0 <= i < j < |rows| ==> rows[i].receipt != rows[j].receipt
  }

  /**
   * Appending a payment keeps the receipts unique exactly when they were
   * unique before and the new receipt number is not yet in use.
   */
  lemma UniqueAfterAppend(rows: seq<Payment>, p: Payment)
    ensures UniqueReceipts(rows + [p]) <==> UniqueReceipts(rows) && p.receipt !in Receipts(rows)
  {
    var rows' := rows + [p];
    if UniqueReceipts(rows') {
      forall i, j | 0 <= i < j < |rows| ensures rows[i].receipt != rows[j].receipt {
        assert rows'[i] == rows[i] && rows'[j] == rows[j];
      }
      forall k | 0 <= k < |rows| ensures rows[k].receipt != p.receipt {
        assert rows'[k] == rows[k] && rows'[|rows|] == p;
      }
    }
    if UniqueReceipts(rows) && p.receipt !in Receipts(rows) {
      forall i, j | 0 <= i < j < |rows'| ensures rows'[i].receipt != rows'[j].receipt {
        if j == |rows| {
          assert rows[i].receipt in Receipts(rows);
        }
      }
    }
  }

  /**
   * Inserting a payment: the database refuses a receipt number already in
   * use and otherwise appends the row. On a table that satisfies the
   * constraint, the insert is accepted exactly when the constraint still
   * holds afterwards.
   */
  function Insert(rows: seq<Payment>, p: Payment): (r: Option<seq<Payment>>)
    ensures r.Some? ==> r.value == rows + [p]
    ensures UniqueReceipts(rows) ==> (r.Some? <==> UniqueReceipts(rows + [p]))
  {
    UniqueAfterAppend(rows, p);
    if p.receipt in Receipts(rows) then None else Some(rows + [p])
  }

  /** The stored payments, in the order they were created. */
  class PaymentLedger {
    var rows: seq<Payment>

    ghost predicate Valid()
      reads this
    {
      UniqueReceipts(rows)
    }

    constructor (rows: seq<Payment>)
      requires UniqueReceipts(rows)
      ensures Valid() && this.rows == rows
    {
      this.rows := rows;
    }

    /** `Payment.objects.create`: fails on a duplicate receipt number and then changes nothing. */
    method Create(p: Payment) returns (ok: bool)
      requires Valid()
      modifies this
      ensures Valid()
      ensures Insert(old(rows), p) == if ok then Some(rows) else None
      ensures ok <==> p.receipt !in old(Receipts(rows))
      ensures rows == if ok then old(rows) + [p] else old(rows)
    {
      ok := p.receipt !in Receipts(rows);
      if ok {
        UniqueAfterAppend(rows, p);
        rows := rows + [p];
      }
    }
  }
}
