/**
 * The `verifyPayment` action of convex/solanaPayment.ts: a chain of early-exit
 * checks on a client-submitted transaction signature, a scan of the transaction's
 * account balances for the merchant's credit, and a ledger write on success.
 *
 * The RPC's answer to `getTransaction` is an input (`RpcReply`), as is the
 * outcome of parsing the merchant address as a public key (`merchantParses`).
 * Balances and amounts are integer lamports.
 */
module SolanaPayment {
  import opened Wrappers
  import opened Strings
  import opened Js
  import opened Ledger

  /** 0.001 SOL, in lamports (1 SOL is 1 000 000 000 lamports). */
  const PaymentAmountLamports: int := 1000000
  /** The accepted distance between the merchant's credit and the payment amount. */
  const Tolerance: int := 1000
  const MinSignatureLength: int := 64

  const InvalidSignature: string := "Invalid transaction signature format"
  const InvalidMerchant: string := "Invalid merchant address format"
  const NotFound: string := "Transaction not found on devnet"
  const NoMetadata: string := "Transaction metadata not available"
  const TransactionFailedPrefix: string := "Transaction failed: "
  const AlreadyUsed: string := "This payment has already been used"
  const AmountMismatch: string := "Payment amount mismatch. Expected ~0.001 SOL, but transaction shows different amount"
  const VerificationFailedPrefix: string := "Verification failed: "
  const Verified: string := "Payment verified successfully"

  /** Transaction metadata; `err` holds the JSON text of the recorded execution error. */
  datatype TxMeta = TxMeta(err: Option<string>, preBalances: seq<int>, postBalances: seq<int>)

  /** A fetched transaction: its metadata and the ordered list of account addresses it references. */
  datatype Transaction = Transaction(meta: Option<TxMeta>, accountKeys: seq<string>)

  /** What `getTransaction` produced: an exception (with its message, if it was an `Error`) or a transaction or null. */
  datatype RpcReply = RpcThrew(message: Option<string>) | Fetched(tx: Option<Transaction>)

  /** The action's result `{valid, message, amount?}`; the amount is in lamports. */
  datatype Verdict = Verdict(valid: bool, message: string, amount: Option<int>)

  /**
   * Everything one verification depends on: the arguments, the address parse,
   * the RPC reply, and whether the ledger already holds the signature.
   */
  datatype Attempt = Attempt(signature: string, merchantAddress: string, merchantParses: bool,
                             rpc: RpcReply, alreadyUsed: bool)

  /** `postBalances[i] - preBalances[i]`; `None` when either balance is missing (the difference is NaN). */
  function BalanceChange(pre: seq<int>, post: seq<int>, i: nat): Option<int>
  {
    if i < |pre| && i < |post| then Some(post[i] - pre[i]) else None
  }

  /** Account `i` is the merchant and its balance went up. */
  predicate IsCredit(keys: seq<string>, pre: seq<int>, post: seq<int>, merchant: string, i: nat)
    requires i < |keys|
  {
    var change := BalanceChange(pre, post, i);
    keys[i] == merchant && change.Some? && change.value > 0
  }

  predicate InWindow(amount: int)
  {
    PaymentAmountLamports - Tolerance <= amount <= PaymentAmountLamports + Tolerance
  }

  /** Account `i` is the merchant and it received the payment amount, within the tolerance. */
  predicate IsPayment(keys: seq<string>, pre: seq<int>, post: seq<int>, merchant: string, i: nat)
    requires i < |keys|
  {
    IsCredit(keys, pre, post, merchant, i) && InWindow(BalanceChange(pre, post, i).value)
  }

  /** The first account at or after `from` that carries the payment. */
  function FirstPayment(keys: seq<string>, pre: seq<int>, post: seq<int>, merchant: string, from: nat): (r: Option<nat>)
    requires from <= |keys|
    ensures r.Some? ==> from <= r.value < |keys| && IsPayment(keys, pre, post, merchant, r.value)
                        && forall j :: from <= j < r.value ==> !IsPayment(keys, pre, post, merchant, j)
    ensures r.None? ==> forall j :: from <= j < |keys| ==> !IsPayment(keys, pre, post, merchant, j)
    decreases |keys| - from
  {
    if from == |keys| then None
    else if IsPayment(keys, pre, post, merchant, from) then Some(from)
    else FirstPayment(keys, pre, post, merchant, from + 1)
  }

  /** The balance change of the last merchant credit among the first `n` accounts, or 0 if there is none. */
  function LastCredit(keys: seq<string>, pre: seq<int>, post: seq<int>, merchant: string, n: nat): (a: int)
    requires n <= |keys|
    ensures a >= 0
    ensures a == 0 <==> forall j :: 0 <= j < n ==> !IsCredit(keys, pre, post, merchant, j)
    ensures a > 0 ==> exists j :: 0 <= j < n && IsCredit(keys, pre, post, merchant, j)
                                 && BalanceChange(pre, post, j) == Some(a)
                                 && forall k :: j < k < n ==> !IsCredit(keys, pre, post, merchant, k)
    decreases n
  {
    if n == 0 then 0
    else if IsCredit(keys, pre, post, merchant, n - 1) then BalanceChange(pre, post, n - 1).value
    else LastCredit(keys, pre, post, merchant, n - 1)
  }

  /**
   * The balance scan: walks the accounts in order, remembers the change of each
   * merchant credit, and stops at the first credit inside the window. `found`
   * tells whether there is one; `amount` is its change, or else the change of
   * the last merchant credit (0 when there is none).
   */
  method ScanBalances(keys: seq<string>, pre: seq<int>, post: seq<int>, merchant: string)
    returns (found: bool, amount: int)
    ensures found <==> exists i :: 0 <= i < |keys| && IsPayment(keys, pre, post, merchant, i)
    ensures found ==> var i := FirstPayment(keys, pre, post, merchant, 0).value;
                      BalanceChange(pre, post, i) == Some(amount) && InWindow(amount)
    ensures !found ==> amount == LastCredit(keys, pre, post, merchant, |keys|)
  {
    found, amount := false, 0;
    var i := 0;
    while i < |keys|
      invariant 0 <= i <= |keys|
      invariant FirstPayment(keys, pre, post, merchant, 0) == FirstPayment(keys, pre, post, merchant, i)
      invariant amount == LastCredit(keys, pre, post, merchant, i)
    {
      var change := BalanceChange(pre, post, i);
      if keys[i] == merchant && change.Some? && change.value > 0 {
        amount := change.value;
        if InWindow(amount) {
          found := true;
          break;
        }
      }
      i := i + 1;
    }
  }

  /**
   * The action's decision, check by check as the handler runs them; the first
   * check that fails decides the verdict.
   */
  function Decide(a: Attempt): Verdict
  {
    if Utf16Length(a.signature) < MinSignatureLength then Verdict(false, InvalidSignature, None)
    else if !a.merchantParses then Verdict(false, InvalidMerchant, None)
    else match a.rpc
      case RpcThrew(message) => Verdict(false, VerificationFailedPrefix + ErrorText(message), None)
      case Fetched(None) => Verdict(false, NotFound, None)
      case Fetched(Some(tx)) =>
        if tx.meta.None? then Verdict(false, NoMetadata, None)
        else if tx.meta.value.err.Some? then Verdict(false, TransactionFailedPrefix + tx.meta.value.err.value, None)
        else if a.alreadyUsed then Verdict(false, AlreadyUsed, None)
        else
          var m := tx.meta.value;
          var first := FirstPayment(tx.accountKeys, m.preBalances, m.postBalances, a.merchantAddress, 0);
          if first.None? then
            Verdict(false, AmountMismatch, Some(LastCredit(tx.accountKeys, m.preBalances, m.postBalances, a.merchantAddress, |tx.accountKeys|)))
          else Verdict(true, Verified, BalanceChange(m.preBalances, m.postBalances, first.value))
  }

  /** The checks of the handler, named. */
  datatype Check = SignatureFormat | MerchantFormat | RpcCall | TransactionFound | MetadataPresent
                 | NoExecutionError | NotYetUsed | AmountReceived

  /** The order in which the handler runs its checks. */
  const CheckOrder: seq<Check> := [SignatureFormat, MerchantFormat, RpcCall, TransactionFound, MetadataPresent,
                                   NoExecutionError, NotYetUsed, AmountReceived]

  /** The metadata of the fetched transaction, when there is one. */
  function MetaOf(rpc: RpcReply): Option<(Transaction, TxMeta)>
  {
    if rpc.Fetched? && rpc.tx.Some? && rpc.tx.value.meta.Some? then Some((rpc.tx.value, rpc.tx.value.meta.value)) else None
  }

  /** Whether one check, taken on its own, passes (a check about data that is missing passes vacuously). */
  predicate Passes(c: Check, a: Attempt)
  {
    match c
    case SignatureFormat => Utf16Length(a.signature) >= MinSignatureLength
    case MerchantFormat => a.merchantParses
    case RpcCall => !a.rpc.RpcThrew?
    case TransactionFound => !(a.rpc.Fetched? && a.rpc.tx.None?)
    case MetadataPresent => !(a.rpc.Fetched? && a.rpc.tx.Some? && a.rpc.tx.value.meta.None?)
    case NoExecutionError => MetaOf(a.rpc).None? || MetaOf(a.rpc).value.1.err.None?
    case NotYetUsed => !a.alreadyUsed
    case AmountReceived =>
      MetaOf(a.rpc).None? ||
      var (tx, m) := MetaOf(a.rpc).value;
      exists i :: 0 <= i < |tx.accountKeys| && IsPayment(tx.accountKeys, m.preBalances, m.postBalances, a.merchantAddress, i)
  }

  /** The first check of `checks`, from position `from` on, that fails. */
  function FirstFailing(checks: seq<Check>, a: Attempt, from: nat): (r: Option<Check>)
    requires from <= |checks|
    ensures r.Some? ==> r.value in checks[from..] && !Passes(r.value, a)
    ensures r.None? <==> forall i :: from <= i < |checks| ==> Passes(checks[i], a)
    decreases |checks| - from
  {
    if from == |checks| then None
    else if !Passes(checks[from], a) then Some(checks[from])
    else FirstFailing(checks, a, from + 1)
  }

  /** The verdict a failing check produces. */
  function Rejection(c: Check, a: Attempt): Verdict
    requires !Passes(c, a)
  {
    match c
    case SignatureFormat => Verdict(false, InvalidSignature, None)
    case MerchantFormat => Verdict(false, InvalidMerchant, None)
    case RpcCall => Verdict(false, VerificationFailedPrefix + ErrorText(a.rpc.message), None)
    case TransactionFound => Verdict(false, NotFound, None)
    case MetadataPresent => Verdict(false, NoMetadata, None)
    case NoExecutionError => Verdict(false, TransactionFailedPrefix + MetaOf(a.rpc).value.1.err.value, None)
    case NotYetUsed => Verdict(false, AlreadyUsed, None)
    case AmountReceived =>
      var (tx, m) := MetaOf(a.rpc).value;
      Verdict(false, AmountMismatch, Some(LastCredit(tx.accountKeys, m.preBalances, m.postBalances, a.merchantAddress, |tx.accountKeys|)))
  }

  /**
   * The first failing check decides the outcome: the verdict is the rejection of
   * the first check in `CheckOrder` that fails, and it is valid only when all pass.
   */
  lemma DecideIsFirstFailingCheck(a: Attempt)
    ensures Decide(a).valid <==> FirstFailing(CheckOrder, a, 0).None?
    ensures FirstFailing(CheckOrder, a, 0).Some? ==> Decide(a) == Rejection(FirstFailing(CheckOrder, a, 0).value, a)
  {
    var k := FirstFailingPosition(CheckOrder, a);
    FirstFailingIsFirst(CheckOrder, a, k);
    DecideAtFirstFailing(a, k);
  }

  /** The position of the first failing check of `checks`, or `|checks|` when every check passes. */
  lemma FirstFailingPosition(checks: seq<Check>, a: Attempt) returns (k: nat)
    ensures k <= |checks|
    ensures forall j :: 0 <= j < k ==> Passes(checks[j], a)
    ensures k < |checks| ==> !Passes(checks[k], a)
  {
    k := 0;
    while k < |checks| && Passes(checks[k], a)
      invariant 0 <= k <= |checks|
      invariant forall j :: 0 <= j < k ==> Passes(checks[j], a)
    {
      k := k + 1;
    }
  }

  /** `FirstFailing` finds the check at position `k` when all the checks before it pass and it fails (or `k` is the end). */
  lemma {:induction false} FirstFailingIsFirst(checks: seq<Check>, a: Attempt, k: nat)
    requires k <= |checks|
    requires forall j :: 0 <= j < k ==> Passes(checks[j], a)
    requires k < |checks| ==> !Passes(checks[k], a)
    ensures FirstFailing(checks, a, 0) == if k < |checks| then Some(checks[k]) else None
  {
    var i := k;
    while i > 0
      invariant 0 <= i <= k
      invariant FirstFailing(checks, a, i) == if k < |checks| then Some(checks[k]) else None
    {
      i := i - 1;
      assert Passes(checks[i], a);
    }
  }

  /** The handler's verdict when the check at position `k` of `CheckOrder` is the first to fail (`k == 8`: none fails). */
  lemma DecideAtFirstFailing(a: Attempt, k: nat)
    requires k <= |CheckOrder|
    requires forall j :: 0 <= j < k ==> Passes(CheckOrder[j], a)
    requires k < |CheckOrder| ==> !Passes(CheckOrder[k], a)
    ensures k < |CheckOrder| ==> Decide(a) == Rejection(CheckOrder[k], a)
    ensures k == |CheckOrder| ==> Decide(a).valid
  {
    var o := CheckOrder;
    assert o[0] == SignatureFormat && o[1] == MerchantFormat && o[2] == RpcCall && o[3] == TransactionFound;
    assert o[4] == MetadataPresent && o[5] == NoExecutionError && o[6] == NotYetUsed && o[7] == AmountReceived;
    if k > 0 { assert Passes(o[0], a); }
    if k > 1 { assert Passes(o[1], a); }
    if k > 2 { assert Passes(o[2], a); }
    if k > 3 { assert Passes(o[3], a); }
    if k > 4 { assert Passes(o[4], a); }
    if k > 5 { assert Passes(o[5], a); }
    if k > 6 { assert Passes(o[6], a); }
    if k > 7 { assert Passes(o[7], a); }
  }

  /**
   * A valid verdict means every check passed: a well-formed signature and
   * address, a fetched transaction without error, an unused signature, and a
   * merchant credit inside the window, whose change is the reported amount.
   */
  lemma ValidVerdict(a: Attempt)
    requires Decide(a).valid
    ensures Utf16Length(a.signature) >= MinSignatureLength && a.merchantParses && !a.alreadyUsed
    ensures MetaOf(a.rpc).Some? && MetaOf(a.rpc).value.1.err.None?
    ensures var (tx, m) := MetaOf(a.rpc).value;
            exists i :: 0 <= i < |tx.accountKeys| && IsPayment(tx.accountKeys, m.preBalances, m.postBalances, a.merchantAddress, i)
                        && Decide(a).amount == BalanceChange(m.preBalances, m.postBalances, i)
    ensures Decide(a).amount.Some? && InWindow(Decide(a).amount.value)
  {
  }

  /**
   * A signature that is empty or shorter than 64 UTF-16 code units is rejected with
   * the format message, whatever the RPC would answer and whatever the ledger holds.
   */
  lemma ShortSignatureRejected(a: Attempt, rpc: RpcReply, alreadyUsed: bool)
    requires Utf16Length(a.signature) < MinSignatureLength
    ensures Decide(a) == Verdict(false, InvalidSignature, None)
    ensures Decide(a.(rpc := rpc, alreadyUsed := alreadyUsed)) == Decide(a)
  {
  }

  /**
   * The format check counts UTF-16 code units: a signature of 64 characters or
   * more always passes it, and so does one of 32 characters outside the Basic
   * Multilingual Plane; without such characters it passes iff it has at least
   * 64 characters.
   */
  lemma SignatureFormatCountsCodeUnits(a: Attempt)
    ensures |a.signature| >= MinSignatureLength ==> Passes(SignatureFormat, a)
    ensures |a.signature| == MinSignatureLength / 2 && (forall i :: 0 <= i < |a.signature| ==> IsAstral(a.signature[i]))
            ==> Passes(SignatureFormat, a)
    ensures (forall i :: 0 <= i < |a.signature| ==> !IsAstral(a.signature[i]))
            ==> (Passes(SignatureFormat, a) <==> |a.signature| >= MinSignatureLength)
  {
    if forall i :: 0 <= i < |a.signature| ==> IsAstral(a.signature[i]) {
      Utf16LengthOfAstral(a.signature);
    }
    if forall i :: 0 <= i < |a.signature| ==> !IsAstral(a.signature[i]) {
      Utf16LengthOfBmp(a.signature);
    }
  }

  /** Once a verification succeeded, the same attempt against a ledger holding its signature is rejected as reused. */
  lemma SecondAttemptRejected(a: Attempt)
    requires Decide(a).valid
    ensures Decide(a.(alreadyUsed := true)) == Verdict(false, AlreadyUsed, None)
  {
  }

  /**
   * `verifyPayment` against the payments table: the verdict is `Decide` of the
   * attempt, with the ledger consulted for the signature; exactly one record
   * (this signature, the matching change, the merchant address) is written when
   * the verdict is valid, and none otherwise.
   */
  method VerifyPayment(ledger: PaymentTable, signature: string, merchantAddress: string, merchantParses: bool, rpc: RpcReply)
    returns (v: Verdict)
    requires ledger.Valid()
    modifies ledger
    ensures ledger.Valid()
    ensures v == Decide(Attempt(signature, merchantAddress, merchantParses, rpc, old(ledger.CheckPaymentExists(signature)).Some?))
    ensures v.valid ==> v.amount.Some?
                        && ledger.records == old(ledger.records) + [PaymentRecord(signature, v.amount.value, merchantAddress)]
    ensures !v.valid ==> ledger.records == old(ledger.records)
  {
    if Utf16Length(signature) < MinSignatureLength {
      return Verdict(false, InvalidSignature, None);
    }
    if !merchantParses {
      return Verdict(false, InvalidMerchant, None);
    }
    if rpc.RpcThrew? {
      return Verdict(false, VerificationFailedPrefix + ErrorText(rpc.message), None);
    }
    var transaction := rpc.tx;
    if transaction.None? {
      return Verdict(false, NotFound, None);
    }
    var tx := transaction.value;
    if tx.meta.None? {
      return Verdict(false, NoMetadata, None);
    }
    var meta := tx.meta.value;
    if meta.err.Some? {
      return Verdict(false, TransactionFailedPrefix + meta.err.value, None);
    }
    var existing := ledger.CheckPaymentExists(signature);
    if existing.Some? {
      return Verdict(false, AlreadyUsed, None);
    }
    var found, actualAmount := ScanBalances(tx.accountKeys, meta.preBalances, meta.postBalances, merchantAddress);
    if !found {
      return Verdict(false, AmountMismatch, Some(actualAmount));
    }
    var id := ledger.RecordPayment(signature, actualAmount, merchantAddress);
    v := Verdict(true, Verified, Some(actualAmount));
  }

  /**
   * Two verifications of the same transaction, one after the other: once the
   * first is valid, the second is rejected as reused and writes nothing.
   */
  method VerifyTwice(ledger: PaymentTable, signature: string, merchantAddress: string, merchantParses: bool, rpc: RpcReply)
    returns (first: Verdict, second: Verdict)
    requires ledger.Valid()
    modifies ledger
    ensures ledger.Valid()
    ensures first.valid ==> second == Verdict(false, AlreadyUsed, None)
    ensures first.valid ==> |ledger.records| == |old(ledger.records)| + 1
  {
    var before := ledger.records;
    first := VerifyPayment(ledger, signature, merchantAddress, merchantParses, rpc);
    if first.valid {
      var rec := PaymentRecord(signature, first.amount.value, merchantAddress);
      LookupAppend(before, rec, signature);
      assert ledger.CheckPaymentExists(signature).Some?;
      SecondAttemptRejected(Attempt(signature, merchantAddress, merchantParses, rpc, false));
    }
    second := VerifyPayment(ledger, signature, merchantAddress, merchantParses, rpc);
  }
}
