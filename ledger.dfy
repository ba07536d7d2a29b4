/**
 * The payments table of convex/solana.ts: the record of transaction signatures
 * that have already paid for a call, its read-only lookup (`checkPaymentExists`),
 * its insert that refuses duplicates (`recordPayment`), and the configured
 * merchant address (`getMerchantAddress`).
 */
module Ledger {
  import opened Wrappers

  /** A row of the `payments` table. The amount is kept in integer lamports. */
  datatype PaymentRecord = PaymentRecord(signature: string, amount: int, merchantAddress: string)

  /** The fallback merchant address: the system program's address, 32 '1' characters. */
  const DefaultMerchantAddress: string := "11111111111111111111111111111111"

  const AlreadyRecorded: string := "Payment already recorded"

  /**
   * `getMerchantAddress`: the configured address (the `SOLANA_MERCHANT_ADDRESS`
   * setting, passed in) unless it is unset or empty, in which case the default.
   */
  function MerchantAddress(configured: Option<string>): (r: string)
    ensures configured.Some? && configured.value != "" ==> r == configured.value
    ensures configured.None? || configured.value == "" ==> |r| == 32 && forall i :: 0 <= i < |r| ==> r[i] == '1'
  {
    if configured.Some? && configured.value != "" then configured.value else DefaultMerchantAddress
  }

  ghost predicate HasSignature(records: seq<PaymentRecord>, signature: string)
  {
    exists i :: 0 <= i < |records| && records[i].signature == signature
  }

  /** The table's invariant: no signature is recorded twice. */
  ghost predicate UniqueSignatures(records: seq<PaymentRecord>)
  {
    forall i, j :: 0 <= i < j < |records| ==> records[i].signature != records[j].signature
  }

  /**
   * The `by_signature` index lookup followed by `.first()`: the earliest record
   * with the signature, or nothing when no record has it.
   */
  function Lookup(records: seq<PaymentRecord>, signature: string): (r: Option<PaymentRecord>)
    ensures r.None? <==> !HasSignature(records, signature)
    ensures r.Some? ==> exists i :: 0 <= i < |records| && records[i] == r.value
                          && r.value.signature == signature
                          && forall j :: 0 <= j < i ==> records[j].signature != signature
    decreases |records|
  {
    if records == [] then None
    else if records[0].signature == signature then Some(records[0])
    else
      var r := Lookup(records[1..], signature);
      LookupTail(records, signature, r);
      r
  }

  /** The step of `Lookup` past a head record that does not carry the signature. */
  lemma LookupTail(records: seq<PaymentRecord>, signature: string, r: Option<PaymentRecord>)
    requires records != [] && records[0].signature != signature
    requires r.None? <==> !HasSignature(records[1..], signature)
    requires r.Some? ==> exists i :: 0 <= i < |records[1..]| && records[1..][i] == r.value
                           && r.value.signature == signature
                           && forall j :: 0 <= j < i ==> records[1..][j].signature != signature
    ensures r.None? <==> !HasSignature(records, signature)
    ensures r.Some? ==> exists i :: 0 <= i < |records| && records[i] == r.value
                          && r.value.signature == signature
                          && forall j :: 0 <= j < i ==> records[j].signature != signature
  {
  }

  /** In a table whose signatures are unique, the lookup finds the one record that has it. */
  lemma LookupUnique(records: seq<PaymentRecord>, i: int)
    requires UniqueSignatures(records)
    requires 0 <= i < |records|
    ensures Lookup(records, records[i].signature) == Some(records[i])
  {
  }

  /**
   * The table after a `recordPayment(rec)` call: unchanged when the signature
   * is already recorded, otherwise extended by exactly `rec`.
   */
  function AfterRecord(records: seq<PaymentRecord>, rec: PaymentRecord): seq<PaymentRecord>
  {
    if Lookup(records, rec.signature).Some? then records else records + [rec]
  }

  /**
   * Lookups after a `recordPayment(rec)` call: the recorded signature is found
   * (as `rec` if it was new), and every other signature is found as before.
   */
  lemma {:induction false} LookupAfterRecord(records: seq<PaymentRecord>, rec: PaymentRecord, signature: string)
    ensures Lookup(AfterRecord(records, rec), rec.signature).Some?
    ensures !HasSignature(records, rec.signature) ==> Lookup(AfterRecord(records, rec), rec.signature) == Some(rec)
    ensures signature != rec.signature ==> Lookup(AfterRecord(records, rec), signature) == Lookup(records, signature)
  {
    if !HasSignature(records, rec.signature) {
      LookupAppend(records, rec, rec.signature);
      LookupAppend(records, rec, signature);
    }
  }

  lemma {:induction false} LookupAppend(records: seq<PaymentRecord>, rec: PaymentRecord, signature: string)
    ensures Lookup(records + [rec], signature)
            == if Lookup(records, signature).Some? then Lookup(records, signature)
               else if rec.signature == signature then Some(rec) else None
    decreases |records|
  {
    if records == [] {
      assert records + [rec] == [rec];
    } else {
      assert (records + [rec])[1..] == records[1..] + [rec];
      LookupAppend(records[1..], rec, signature);
    }
  }

  /** `recordPayment` keeps the signatures of the table pairwise distinct. */
  lemma AfterRecordKeepsUnique(records: seq<PaymentRecord>, rec: PaymentRecord)
    requires UniqueSignatures(records)
    ensures UniqueSignatures(AfterRecord(records, rec))
  {
  }

  /** The table after a sequence of `recordPayment` calls, one after the other. */
  function Replay(records: seq<PaymentRecord>, calls: seq<PaymentRecord>): seq<PaymentRecord>
    decreases |calls|
  {
    if calls == [] then records else Replay(AfterRecord(records, calls[0]), calls[1..])
  }

  /**
   * Under sequential use the signatures stay pairwise distinct, and every
   * signature that was ever recorded is found afterwards.
   */
  lemma {:induction false} ReplayKeepsUnique(records: seq<PaymentRecord>, calls: seq<PaymentRecord>)
    requires UniqueSignatures(records)
    ensures UniqueSignatures(Replay(records, calls))
    ensures forall i :: 0 <= i < |calls| ==> Lookup(Replay(records, calls), calls[i].signature).Some?
    ensures forall i :: 0 <= i < |records| ==> Lookup(Replay(records, calls), records[i].signature) == Some(records[i])
    decreases |calls|
  {
    if calls != [] {
      var next := AfterRecord(records, calls[0]);
      AfterRecordKeepsUnique(records, calls[0]);
      ReplayKeepsUnique(next, calls[1..]);
      var final := Replay(records, calls);
      assert final == Replay(next, calls[1..]);
      assert forall i :: 0 <= i < |records| ==> next[i] == records[i];
      LookupAfterRecord(records, calls[0], calls[0].signature);
      assert exists k :: 0 <= k < |next| && next[k].signature == calls[0].signature;
      forall i | 0 <= i < |calls| ensures Lookup(final, calls[i].signature).Some? {
        if i == 0 {
          var k :| 0 <= k < |next| && next[k].signature == calls[0].signature;
          assert Lookup(final, next[k].signature).Some?;
        } else {
          assert calls[i] == calls[1..][i - 1];
        }
      }
    }
  }

  /** The `payments` table, updated in place by `recordPayment`. */
  class PaymentTable {
    var records: seq<PaymentRecord>

    ghost predicate Valid()
      reads this
    {
      UniqueSignatures(records)
    }

    constructor ()
      ensures Valid() && records == []
    {
      records := [];
    }

    /** `checkPaymentExists`: the stored record with this signature, or null. */
    function CheckPaymentExists(signature: string): (r: Option<PaymentRecord>)
      reads this
      ensures r.None? <==> !HasSignature(records, signature)
      ensures r.Some? ==> r.value in records && r.value.signature == signature
    {
      Lookup(records, signature)
    }

    /**
     * `recordPayment`: re-checks the index and throws "Payment already recorded"
     * (leaving the table as it was) when the signature is present; otherwise
     * inserts one record and returns its id, its position in the table.
     */
    method RecordPayment(signature: string, amount: int, merchantAddress: string) returns (r: Result<nat, string>)
      requires Valid()
      modifies this
      ensures Valid()
      ensures records == AfterRecord(old(records), PaymentRecord(signature, amount, merchantAddress))
      ensures old(HasSignature(records, signature)) ==> r == Failure(AlreadyRecorded) && records == old(records)
      ensures !old(HasSignature(records, signature)) ==>
                r == Success(|old(records)|)
                && records == old(records) + [PaymentRecord(signature, amount, merchantAddress)]
    {
      var existing := Lookup(records, signature);
      if existing.Some? {
        return Failure(AlreadyRecorded);
      }
      records := records + [PaymentRecord(signature, amount, merchantAddress)];
      r := Success(|records| - 1);
    }
  }
}
